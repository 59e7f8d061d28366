/** What each step of a node does, said without its handlers: which states go, which are made, which
    events are sent. Together with the invariant this leaves no choice of the next state. */
module Effects {
  import opened Options
  import opened ConnMap
  import opened Node
  import opened NodeInv
  import opened ConnectOps
  import opened NodeRuns
  import opened Attempts

  /** A state without the set of its sub-states, which are known from the table. */
  function Shell(st: State): State {
    match st
    case Connecting(p, _, armed) => Connecting(p, {}, armed)
    case InExchange(asked, replying, next, _) => InExchange(asked, replying, next, {})
    case Bootstrapping(_, discovering) => Bootstrapping({}, discovering)
    case _ => st
  }

  function Bare(states: States): States {
    map t | t in states :: Shell(states[t])
  }

  /** The tokens whose states go, the states that are made, the events sent and the tokens used up. A token
      in both `gone` and `made` changes hands. */
  datatype Effect = Effect(gone: set<Token>, made: States, said: seq<Event>, tokens: nat)

  predicate Does(s: NodeState, f: Effect, s': NodeState) {
    && Bare(s'.states) == (Bare(s.states) - f.gone) + f.made
    && s'.events == s.events + f.said
    && s'.counter == s.counter + f.tokens
  }

  const Nothing := Effect({}, map[], [], 0)

  // ----- What each kind of step does -----

  ghost function WithKids(states: States, t: Token): set<Token> {
    {t} + KidsOf(states, t)
  }

  /** Something with `p` is left when `gone` is not. */
  ghost predicate Remains(states: States, p: Uid, gone: set<Token>) {
    exists t :: t in states && t !in gone && (HandshakesWith(states[t], p) || ServesPeer(states[t], p))
  }

  ghost function FailureUnless(states: States, p: Uid, gone: set<Token>): seq<Event> {
    if Remains(states, p, gone) then [] else [ConnectFailure(p)]
  }

  function Received(p: Uid, r: Reads): seq<Event> {
    seq(r.messages, _ => NewMessage(p)) + if r.failed then [LostPeer(p)] else []
  }

  /** `c` goes into service with `p`, and out of it again if its first read fails. */
  function Serves(gone: set<Token>, c: Token, p: Uid, role: Role, up: Event, r: Reads): Effect {
    Effect(gone + {c}, if r.failed then map[] else map[c := Active(p, role)], [up] + Received(p, r), 0)
  }

  /** A sub-state or a lone candidate goes. An attempt goes with its last sub-state. */
  ghost function Fails(s: NodeState, c: Token): Effect
    requires IsHandshake(s, c)
  {
    match ParentOf(s.states[c])
    case Some(t) =>
      if KidsOf(s.states, t) == {c} then
        Effect({c, t}, map[], FailureUnless(s.states, s.states[c].peer, {c, t}), 0)
      else Effect({c}, map[], [], 0)
    case None => Effect({c}, map[], [], 0)
  }

  /** The candidate's attempt goes, and its siblings. */
  ghost function Wins(s: NodeState, c: Token, r: Reads): Effect
    requires IsHandshake(s, c)
  {
    var p, t := s.states[c].peer, ParentOf(s.states[c]);
    Serves(if t.Some? then WithKids(s.states, t.value) else {}, c, p, AsNode, ConnectSuccess(p), r)
  }

  ghost function Writable(us: Uid, s: NodeState, c: Token, wrote: Wrote, heard: Heard): Effect
    requires IsHandshake(s, c)
  {
    var p := s.states[c].peer;
    if Actives(s.states, p) != {} || (us > p && wrote.Failed?) || (us <= p && heard.Unexpected?) then Fails(s, c)
    else if us > p && wrote.Sent? then Wins(s, c, wrote.first)
    else if us <= p && heard.Chosen? then Wins(s, c, heard.first)
    else Nothing
  }

  /** An exchange settles on its reply, and its checks go. */
  ghost function Replies(s: NodeState, t: Token, next: NextState, w: Written): Effect {
    Settles(WithKids(s.states, t), next.ToActive? && Actives(s.states, next.uid) != {}, t, next, w)
  }

  /** With `all` of an exchange: it goes if its peer has a connection in service by now or the socket is
      broken; waits if the reply is not out; and otherwise goes on to what it was asked for. */
  function Settles(all: set<Token>, inService: bool, t: Token, next: NextState, w: Written): Effect {
    if w.Broken? || inService then Effect(all, map[], [], 0)
    else if w.Unfinished? then Effect(all, map[t := InExchange(true, true, next, {})], [], 0)
    else match next
         case NoNext => Effect(all, map[], [], 0)
         case ToActive(u, role) => Serves(all, t, u, role, BootstrapAccept(u), w.first)
         case ToCandidate(u) => Effect(all, if w.registered then map[t := Candidate(u, None)] else map[], [], 0)
  }

  /** The tokens from `first` on, one for each socket, but only where it could be registered. */
  function Launched(first: Token, oks: seq<bool>, st: State): States {
    map t: Token | first <= t < first + |oks| && Opened(first, oks, t) :: st
  }

  predicate Opened(first: Token, oks: seq<bool>, t: Token) {
    first <= t < first + |oks| && oks[t - first]
  }

  ghost function Asked(us: Uid, s: NodeState, t: Token, u: Uid, ask: Ask, env: R.Setting, oks: seq<bool>, w: Written)
    : Effect
  {
    var away := Effect(WithKids(s.states, t), map[], [], 0);
    match ask
    case AskOther => away
    case AskEcho => if env.addrKnown then Replies(s, t, NoNext, w) else away
    case AskIntroduction =>
      if u != us && env.hashMatches && env.nodeListed then Replies(s, t, ToCandidate(u), w) else away
    case AskBootstrap(reachable) =>
      if u == us || !env.acceptBootstrap then away
      else if env.hashMatches && !reachable && env.clientListed then Replies(s, t, ToActive(u, AsClient), w)
      else if !(env.hashMatches && reachable && env.nodeListed) then Replies(s, t, NoNext, w)
      else if !env.requireReachability then Replies(s, t, ToActive(u, AsNode), w)
      else if true in oks then
        Effect({}, map[t := InExchange(true, false, NoNext, {})] + Launched(s.counter, oks, Checking(u, t)), [], |oks|)
      else Replies(s, t, NoNext, w).(tokens := |oks|)
  }

  ghost function CheckOver(s: NodeState, k: Token, reached: bool, w: Written): Effect
    requires k in s.states && s.states[k].Checking?
  {
    var Checking(u, t) := s.states[k];
    if reached then Replies(s, t, ToActive(u, AsNode), w)
    else if KidsOf(s.states, t) == {k} then Replies(s, t, NoNext, w)
    else Effect({k}, map[], [], 0)
  }

  /** An attempt and its first sub-states. It is without timeout if its first socket fails, and says so once
      for every socket that fails before the first that does not, unless something with the peer is there. */
  ghost function AttemptBegins(s: NodeState, p: Uid, oks: seq<bool>): Effect {
    var a := Connecting(p, {}, oks == [] || oks[0]);
    Effect({}, map[s.counter := a] + Launched(s.counter + 1, oks, OutExchange(p, s.counter)),
           if Remains(s.states, p, {}) then [] else seq(Leading(oks), _ => ConnectFailure(p)), 1 + |oks|)
  }

  /** Tries begin; a bootstrap that has none is over. */
  function TriesBegin(s: NodeState, oks: seq<bool>, started: seq<Event>): Effect {
    if true in oks then
      Effect({}, map[BOOTSTRAP := Bootstrapping({}, false)] + Launched(s.counter, oks, TryPeer), started, |oks|)
    else Effect({BOOTSTRAP}, map[], started + [BootstrapFailed], |oks|)
  }

  ghost function TryOver(s: NodeState, k: Token, res: TryResult, r: Reads): Effect {
    var all := WithKids(s.states, BOOTSTRAP);
    match res
    case Granted(u) => Serves(all, k, u, AsNode, BootstrapConnect(u), r)
    case Denied(reason) =>
      if reason in {Some(M.InvalidNameHash), Some(M.FailedExternalReachability)} || KidsOf(s.states, BOOTSTRAP) == {k}
      then Effect(all, map[], [BootstrapFailed], 0)
      else Effect({k}, map[], [], 0)
  }

  ghost function EffectOf(us: Uid, s: NodeState, e: Step): Effect
    requires Enabled(s, e)
  {
    match e
    case Connect(p, oks) => AttemptBegins(s, p, oks)
    case ConnectNowhere(p) => Effect({}, map[], [ConnectFailure(p)], 0)
    case AttemptTimeout(t) =>
      var all := WithKids(s.states, t);
      Effect(all, map[], FailureUnless(s.states, s.states[t].peer, all), 0)
    case ExchangeReply(c, registered) =>
      if registered then Effect({}, map[c := Candidate(s.states[c].peer, ParentOf(s.states[c]))], [], 0)
      else Fails(s, c)
    case HandshakeError(c) => Fails(s, c)
    case CandidateWritable(c, wrote, heard) => Writable(us, s, c, wrote, heard)
    case CandidateReadable(c, heard) =>
      if heard.Chosen? then Wins(s, c, heard.first) else if heard.Unexpected? then Fails(s, c) else Nothing
    case Accept => Effect({}, map[s.counter := InExchange(false, false, NoNext, {})], [], 1)
    case Request(t, u, ask, env, oks, w) => Asked(us, s, t, u, ask, env, oks, w)
    case IncomingWritable(t, w) => Replies(s, t, s.states[t].next, w)
    case IncomingEnds(t) => Effect(WithKids(s.states, t), map[], [], 0)
    case CheckEnds(k, reached, w) => CheckOver(s, k, reached, w)
    case ActiveReads(c, r) => Effect(if r.failed then {c} else {}, map[], Received(s.states[c].peer, r), 0)
    case ActiveSends(c, broken) => if broken then Effect({c}, map[], [LostPeer(s.states[c].peer)], 0) else Nothing
    case ActiveEnds(c) => Effect({c}, map[], [LostPeer(s.states[c].peer)], 0)
    case Purge(cs) => Effect(set c | c in cs, map[], Losses(s.states, cs), 0)
    case Bootstrap(discover, oks) =>
      if discover then Effect({}, map[BOOTSTRAP := Bootstrapping({}, true)], [BootstrapStarted], 0)
      else TriesBegin(s, oks, [BootstrapStarted])
    case DiscoveryTimeout(oks) => TriesBegin(s, oks, [])
    case BootstrapTimeout => Effect(WithKids(s.states, BOOTSTRAP), map[], [BootstrapFailed], 0)
    case StopBootstrap => Effect(WithKids(s.states, BOOTSTRAP), map[], [BootstrapStopped], 0)
    case TryEnds(k, res, r) => TryOver(s, k, res, r)
    case BootstrapNotStarted(_) => Effect({}, map[], [BootstrapStarted, BootstrapFailed], 0)
    case StaleTimeout =>
      if BOOTSTRAP in s.states then Effect(WithKids(s.states, BOOTSTRAP), map[], [BootstrapFailed], 0) else Nothing
  }

  /** One loss for each of the connections, in the order they are listed. */
  function Losses(states: States, cs: seq<Token>): seq<Event>
    requires forall i :: 0 <= i < |cs| ==> cs[i] in states && states[cs[i]].Active?
  {
    seq(|cs|, i requires 0 <= i < |cs| => LostPeer(states[cs[i]].peer))
  }

  // ----- Each handler does that -----

  lemma BarePut(states: States, t: Token, st: State)
    ensures Bare(states[t := st]) == Bare(states)[t := Shell(st)]
  {
  }

  lemma BareRemove(states: States, ks: set<Token>)
    ensures Bare(states - ks) == Bare(states) - ks
  {
  }

  /** The map knows a peer exactly while something with it remains. */
  lemma KnownRemains(s: NodeState, p: Uid)
    requires Accounts(s.states, s.cm)
    ensures p in s.cm <==> Remains(s.states, p, {})
    ensures InService(s.cm, p) <==> Actives(s.states, p) != {}
    ensures NothingLeft(s, p) <==> !Remains(s.states, p, {})
  {
    assert Agrees(s.states, s.cm, p);
    if Remains(s.states, p, {}) {
      var t :| t in s.states && (HandshakesWith(s.states[t], p) || ServesPeer(s.states[t], p));
      assert t in Handshakes(s.states, p) || t in Actives(s.states, p);
    }
    if !NothingLeft(s, p) {
      var t :| t in Handshakes(s.states, p) || t in Actives(s.states, p);
      assert t in s.states;
    }
  }

  /** What remains is the same with or without the sets of sub-states. */
  lemma RemainsBare(states: States, states': States, p: Uid, gone: set<Token>)
    requires Bare(states') == Bare(states) - gone
    ensures Remains(states', p, {}) <==> Remains(states, p, gone)
  {
    forall t | t in states && t !in gone ensures t in states' && Shell(states'[t]) == Shell(states[t]) {
      assert t in Bare(states) - gone;
      assert Bare(states')[t] == Bare(states)[t];
    }
    forall t | t in states' ensures t in states && t !in gone && Shell(states'[t]) == Shell(states[t]) {
      assert t in Bare(states');
      assert Bare(states')[t] == Bare(states)[t];
    }
  }

  lemma ShellSets(states: States, states': States, gone: set<Token>, p: Uid)
    requires Bare(states') == Bare(states) - gone
    ensures Handshakes(states', p) == Handshakes(states, p) - gone && Actives(states', p) == Actives(states, p) - gone
  {
    forall t ensures t in states' <==> t in states && t !in gone {
      assert t in states' <==> t in Bare(states');
    }
    forall t | t in states'
      ensures HandshakesWith(states'[t], p) == HandshakesWith(states[t], p)
      ensures ServesPeer(states'[t], p) == ServesPeer(states[t], p)
    {
      assert Bare(states')[t] == Bare(states)[t];
    }
  }

  lemma AttemptGone(s: NodeState, t: Token)
    requires Owns(s.states) && IsAttempt(s, t)
    ensures EndAttempt(s, t).states == s.states - WithKids(s.states, t) && EndAttempt(s, t).counter == s.counter
  {
    assert Kids(s.states[t]) == KidsOf(s.states, t);
  }

  lemma AttemptSays(s: NodeState, t: Token)
    requires Inv(s) && IsAttempt(s, t)
    ensures EndAttempt(s, t).events == s.events + FailureUnless(s.states, s.states[t].peer, WithKids(s.states, t))
  {
    var p, all, s' := s.states[t].peer, WithKids(s.states, t), EndAttempt(s, t);
    assert NothingLeft(s', p) <==> !Remains(s'.states, p, {}) by {
      EndAttemptKeeps(s, t);
      KnownRemains(s', p);
    }
    assert Remains(s'.states, p, {}) <==> Remains(s.states, p, all) by {
      AttemptGone(s, t);
      BareRemove(s.states, all);
      RemainsBare(s.states, s'.states, p, all);
    }
    FailureRule(s, t);
  }

  lemma AttemptGoes(s: NodeState, t: Token)
    requires Inv(s) && IsAttempt(s, t)
    ensures var all := WithKids(s.states, t);
            Does(s, Effect(all, map[], FailureUnless(s.states, s.states[t].peer, all), 0), EndAttempt(s, t))
  {
    AttemptGone(s, t);
    BareRemove(s.states, WithKids(s.states, t));
    AttemptSays(s, t);
  }

  lemma ChildLeaves(s: NodeState, c: Token, t: Token)
    requires Owns(s.states) && IsHandshake(s, c) && ParentOf(s.states[c]) == Some(t)
    ensures IsAttempt(s, t) && c != t && c in KidsOf(s.states, t)
    ensures var s2 := Disown(s.Remove(c).(cm := LeaveHandshake(s.cm, s.states[c].peer)), c, t);
            && FailHandshake(s, c) == MaybeEndAttempt(s2, t)
            && Bare(s2.states) == Bare(s.states) - {c}
            && s2.states[t].children == KidsOf(s.states, t) - {c}
  {
    assert Kin(s.states, c);
    assert Kids(s.states[t]) == KidsOf(s.states, t);
    BareRemove(s.states, {c});
    BarePut(s.states - {c}, t, s.states[t].(children := s.states[t].children - {c}));
  }

  lemma HandshakeGoes(s: NodeState, c: Token)
    requires Inv(s) && IsHandshake(s, c)
    ensures Does(s, Fails(s, c), FailHandshake(s, c))
  {
    if ParentOf(s.states[c]).None? {
      LoneGoes(s, c);
    } else {
      var t := ParentOf(s.states[c]).value;
      if KidsOf(s.states, t) == {c} { LastGoes(s, c, t); } else { OneOfManyGoes(s, c, t); }
    }
  }

  lemma LoneGoes(s: NodeState, c: Token)
    requires IsHandshake(s, c) && ParentOf(s.states[c]).None?
    ensures Does(s, Effect({c}, map[], [], 0), FailHandshake(s, c))
  {
    assert s.events + [] == s.events;
    BareRemove(s.states, {c});
  }

  lemma OneOfManyGoes(s: NodeState, c: Token, t: Token)
    requires Owns(s.states) && IsHandshake(s, c) && ParentOf(s.states[c]) == Some(t) && KidsOf(s.states, t) != {c}
    ensures Does(s, Effect({c}, map[], [], 0), FailHandshake(s, c))
  {
    assert s.events + [] == s.events;
    ChildLeaves(s, c, t);
    assert KidsOf(s.states, t) - {c} != {};
  }

  lemma LastGoes(s: NodeState, c: Token, t: Token)
    requires Inv(s) && IsHandshake(s, c) && ParentOf(s.states[c]) == Some(t) && KidsOf(s.states, t) == {c}
    ensures Does(s, Effect({c, t}, map[], FailureUnless(s.states, s.states[c].peer, {c, t}), 0), FailHandshake(s, c))
  {
    var p := s.states[c].peer;
    var s2 := Disown(s.Remove(c).(cm := LeaveHandshake(s.cm, p)), c, t);
    ChildLeaves(s, c, t);
    assert Kin(s.states, c);
    LoseChildKeeps(s, c, t);
    AttemptGoes(s2, t);
    assert WithKids(s2.states, t) == {t};
    TwoGo(s, s2, FailHandshake(s, c), c, t);
  }

  lemma TwoGo(s: NodeState, s2: NodeState, s': NodeState, c: Token, t: Token)
    requires c in s.states && IsHandshake(s, c) && t in s.states && c != t && Bare(s2.states) == Bare(s.states) - {c}
    requires s2.events == s.events && s2.counter == s.counter
    requires Does(s2, Effect({t}, map[], FailureUnless(s2.states, s.states[c].peer, {t}), 0), s')
    ensures Does(s, Effect({c, t}, map[], FailureUnless(s.states, s.states[c].peer, {c, t}), 0), s')
  {
    var p := s.states[c].peer;
    assert Bare(s.states) - {c} - {t} == Bare(s.states) - {c, t};
    RemainsBare(s2.states, s'.states, p, {t});
    RemainsBare(s.states, s'.states, p, {c, t});
  }

  // ----- Entering service -----

  lemma ReadGoes(s: NodeState, c: Token, r: Reads)
    requires c in s.states && s.states[c].Active?
    ensures Does(s, Effect(if r.failed then {c} else {}, map[], Received(s.states[c].peer, r), 0), ReadActive(s, c, r))
  {
    var p := s.states[c].peer;
    var news := seq(r.messages, _ => NewMessage(p));
    assert news == News(p, r.messages);
    assert s.events + (news + [LostPeer(p)]) == (s.events + news) + [LostPeer(p)];
    assert news + [] == news;
    BareRemove(s.states, if r.failed then {c} else {});
  }

  lemma ServiceBegins(s: NodeState, c: Token, p: Uid, role: Role, up: Event, r: Reads)
    ensures Does(s, Serves({}, c, p, role, up, r), StartActive(s, c, p, role, up, true, r))
  {
    var s1 := s.Put(c, Active(p, role)).Arm(c, RECV).Arm(c, SEND).(cm := Activate(s.cm, p, c)).Say(up);
    ReadGoes(s1, c, r);
    BarePut(s.states, c, Active(p, role));
    PutThenGone(Bare(s.states), c, Active(p, role));
    Regrouped(s.events, [up], Received(p, r));
  }

  lemma PutThenGone(states: States, c: Token, st: State)
    ensures states[c := st] - {c} == states - ({} + {c}) && states[c := st] - {} == (states - ({} + {c})) + map[c := st]
    ensures forall m: States :: m + map[] == m
  {
  }

  lemma Regrouped(a: seq<Event>, b: seq<Event>, c: seq<Event>)
    ensures (a + b) + c == a + (b + c)
  {
  }

  /** What goes first goes with what the rest does. */
  lemma GoneFirst(s: NodeState, s1: NodeState, c: Token, f: Effect, gone: set<Token>, tokens: nat, s': NodeState)
    requires Does(s1, f, s') && f.gone == {c} && s1.events == s.events && s1.counter == s.counter + tokens
    requires Bare(s1.states) - {c} == Bare(s.states) - gone
    ensures Does(s, f.(gone := gone, tokens := tokens + f.tokens), s')
  {
  }

  lemma WinnerServes(s: NodeState, c: Token, r: Reads)
    requires Inv(s) && IsHandshake(s, c) && s.states[c].Candidate?
    ensures Does(s, Wins(s, c, r), WinCandidate(s, c, true, r))
  {
    var p, parent := s.states[c].peer, s.states[c].parent;
    if parent.None? {
      ServiceBegins(s, c, p, AsNode, ConnectSuccess(p), r);
    } else {
      assert Kin(s.states, c);
      ChildServes(s, c, parent.value, r);
    }
  }

  lemma ChildServes(s: NodeState, c: Token, t: Token, r: Reads)
    requires Inv(s) && IsHandshake(s, c) && s.states[c] == Candidate(s.states[c].peer, Some(t)) && IsAttempt(s, t)
    ensures Does(s, Wins(s, c, r), WinCandidate(s, c, true, r))
  {
    var p := s.states[c].peer;
    var s1 := EndAttempt(Disown(s.Put(c, Candidate(p, None)), c, t), t);
    AttemptEndsAround(s, c, t);
    ServesAfter(s, s1, WithKids(s.states, t), c, p, r);
  }

  lemma ServesAfter(s: NodeState, s1: NodeState, all: set<Token>, c: Token, p: Uid, r: Reads)
    requires c in all && s1.events == s.events && s1.counter == s.counter
    requires Bare(s1.states) - {c} == Bare(s.states) - all
    ensures Does(s, Serves(all, c, p, AsNode, ConnectSuccess(p), r),
                 StartActive(s1, c, p, AsNode, ConnectSuccess(p), true, r))
  {
    ServiceBegins(s1, c, p, AsNode, ConnectSuccess(p), r);
    assert all + {c} == all && {} + {c} == {c};
    GoneFirst(s, s1, c, Serves({}, c, p, AsNode, ConnectSuccess(p), r), all, 0,
              StartActive(s1, c, p, AsNode, ConnectSuccess(p), true, r));
  }

  lemma AttemptEndsAround(s: NodeState, c: Token, t: Token)
    requires Inv(s) && IsHandshake(s, c) && s.states[c] == Candidate(s.states[c].peer, Some(t)) && IsAttempt(s, t)
    ensures var s1 := EndAttempt(Disown(s.Put(c, Candidate(s.states[c].peer, None)), c, t), t);
            && s1.events == s.events && s1.counter == s.counter && c in WithKids(s.states, t)
            && Bare(s1.states) - {c} == Bare(s.states) - WithKids(s.states, t)
  {
    WinnerSurvives(s, c, t);
    var all, s1 := WithKids(s.states, t), EndAttempt(Disown(s.Put(c, Candidate(s.states[c].peer, None)), c, t), t);
    assert s1.states - {c} == s.states - all by {
      assert Kids(s.states[t]) == KidsOf(s.states, t) && c in KidsOf(s.states, t);
    }
    BareRemove(s1.states, {c});
    BareRemove(s.states, all);
  }

  lemma WritableDoes(us: Uid, s: NodeState, c: Token, wrote: Wrote, heard: Heard)
    requires Inv(s) && IsHandshake(s, c) && s.states[c].Candidate?
    ensures Does(s, Writable(us, s, c, wrote, heard), WritableCandidate(us, s, c, wrote, heard))
  {
    KnownRemains(s, s.states[c].peer);
    HandshakeGoes(s, c);
    Stays(s);
    if us > s.states[c].peer {
      if wrote.Sent? { WinnerServes(s, c, wrote.first); }
    } else if heard.Chosen? {
      WinnerServes(s, c, heard.first);
    }
  }

  lemma Stays(s: NodeState)
    ensures Does(s, Nothing, s)
  {
    assert s.events + [] == s.events;
  }
}
