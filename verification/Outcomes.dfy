/** What single steps come to in every run: what an end leaves, and how a writable candidate fares. */
module Outcomes {
  import opened Options
  import opened ConnMap
  import opened Node
  import opened NodeInv
  import opened NodeRuns
  import opened Attempts
  import opened Effects
  import opened EffectRuns

  // ----- Ends -----

  /** The state that a step ends, for the steps that only end one. */
  function Ended(e: Step): Option<Token> {
    match e
    case AttemptTimeout(t) => Some(t)
    case HandshakeError(c) => Some(c)
    case IncomingEnds(t) => Some(t)
    case ActiveEnds(c) => Some(c)
    case BootstrapTimeout => Some(BOOTSTRAP)
    case StopBootstrap => Some(BOOTSTRAP)
    case _ => None
  }

  /** Neither in the table nor in the set of any state there. */
  ghost predicate Nowhere(s: NodeState, c: Token) {
    c !in s.states && forall u :: u in s.states ==> c !in Kids(s.states[u])
  }

  lemma AbsentIsNowhere(s: NodeState, c: Token)
    requires Owns(s.states) && c !in s.states
    ensures Nowhere(s, c)
  {
    forall u | u in s.states ensures c !in Kids(s.states[u]) { assert Kids(s.states[u]) == KidsOf(s.states, u); }
  }

  /** In every run, after a step that ends a state, neither it nor any sub-state it had is in the table, and
      none of them is in the set of any other. */
  lemma EndedIsGone(us: Uid, ss: seq<NodeState>, es: seq<Step>, n: nat, t: Token, c: Token)
    requires IsRun(us, ss, es) && n < |es| && Ended(es[n]) == Some(t) && (c == t || c in KidsOf(ss[n].states, t))
    ensures Nowhere(ss[n + 1], c)
  {
    var s, s' := ss[n], ss[n + 1];
    RunKeeps(us, ss, es, n);
    RunKeeps(us, ss, es, n + 1);
    StepDoes(us, ss, es, n);
    EndTakes(us, s, es[n], t, c);
    assert c !in Bare(s'.states);
    AbsentIsNowhere(s', c);
  }

  lemma EndTakes(us: Uid, s: NodeState, e: Step, t: Token, c: Token)
    requires Inv(s) && Enabled(s, e) && Ended(e) == Some(t) && (c == t || c in KidsOf(s.states, t))
    ensures c in EffectOf(us, s, e).gone && EffectOf(us, s, e).made == map[]
  {
    if e.HandshakeError? { assert Kids(s.states[t]) == KidsOf(s.states, t); }
  }

  /** In every run the timeout of an attempt reports a failure to connect if and only if nothing with the
      peer is left, and reports nothing else. */
  lemma TimeoutReports(us: Uid, ss: seq<NodeState>, es: seq<Step>, n: nat)
    requires IsRun(us, ss, es) && n < |es| && es[n].AttemptTimeout?
    ensures IsAttempt(ss[n], es[n].t) && es[n].t !in ss[n + 1].states
    ensures var p := ss[n].states[es[n].t].peer;
            ss[n + 1].events == ss[n].events + if NothingLeft(ss[n + 1], p) then [ConnectFailure(p)] else []
  {
    EndedIsGone(us, ss, es, n, es[n].t, es[n].t);
    AttemptEnds(us, ss, es, n, es[n].t);
  }

  // ----- A writable candidate -----

  /** The step's events begin with success. */
  predicate Succeeds(s: NodeState, s': NodeState, p: Uid) {
    |s.events| < |s'.events| && s'.events[|s.events|] == ConnectSuccess(p)
  }

  /** `c` is gone from the table, from the count of its peer and from every set, and was not in service. */
  ghost predicate GaveWay(s: NodeState, s': NodeState, c: Token, p: Uid) {
    && Nowhere(s', c) && !Succeeds(s, s', p)
    && Handshakes(s'.states, p) == Handshakes(s.states, p) - {c} && Actives(s'.states, p) == Actives(s.states, p)
    && p in s.cm && (if p in s'.cm then s'.cm[p].handshaking else 0) == s.cm[p].handshaking - 1
  }

  lemma FailedGaveWay(s: NodeState, s': NodeState, c: Token)
    requires Inv(s) && Inv(s') && IsHandshake(s, c) && Does(s, Fails(s, c), s')
    ensures GaveWay(s, s', c, s.states[c].peer)
  {
    var p := s.states[c].peer;
    assert c !in Bare(s'.states);
    AbsentIsNowhere(s', c);
    FailedSets(s, s', c);
    OneLess(s, s', c);
  }

  lemma FailedSets(s: NodeState, s': NodeState, c: Token)
    requires Owns(s.states) && IsHandshake(s, c) && Does(s, Fails(s, c), s')
    ensures var p := s.states[c].peer;
            Handshakes(s'.states, p) == Handshakes(s.states, p) - {c} && Actives(s'.states, p) == Actives(s.states, p)
  {
    var p, gone := s.states[c].peer, Fails(s, c).gone;
    ShellSets(s.states, s'.states, gone, p);
    assert Kin(s.states, c);
    assert Handshakes(s.states, p) - gone == Handshakes(s.states, p) - {c};
    assert Actives(s.states, p) - gone == Actives(s.states, p);
  }

  lemma OneLess(s: NodeState, s': NodeState, c: Token)
    requires Accounts(s.states, s.cm) && Accounts(s'.states, s'.cm) && IsHandshake(s, c)
    requires Handshakes(s'.states, s.states[c].peer) == Handshakes(s.states, s.states[c].peer) - {c}
    ensures var p := s.states[c].peer;
            p in s.cm && (if p in s'.cm then s'.cm[p].handshaking else 0) == s.cm[p].handshaking - 1
  {
    var p := s.states[c].peer;
    assert Agrees(s.states, s.cm, p) && Agrees(s'.states, s'.cm, p) && c in Handshakes(s.states, p);
    assert |Handshakes(s.states, p) - {c}| == |Handshakes(s.states, p)| - 1;
  }

  /** In every run, for a candidate that becomes writable: it enters service if and only if nothing with
      the peer is in service and the larger id has sent its choice or the smaller has heard it; it gives
      way, without having been in service, if and only if something is, or the larger id's write failed,
      or the smaller read what it did not expect; and otherwise nothing changes at all. */
  lemma CandidateFate(us: Uid, ss: seq<NodeState>, es: seq<Step>, n: nat)
    requires IsRun(us, ss, es) && n < |es| && es[n].CandidateWritable?
    ensures IsHandshake(ss[n], es[n].c) && ss[n].states[es[n].c].peer in ss[n].cm
    ensures var s, s', CandidateWritable(c, wrote, heard), p := ss[n], ss[n + 1], es[n], ss[n].states[es[n].c].peer;
            && (Succeeds(s, s', p) <==> !InService(s.cm, p) && if us > p then wrote.Sent? else heard.Chosen?)
            && (GaveWay(s, s', c, p) <==> InService(s.cm, p) || if us > p then wrote.Failed? else heard.Unexpected?)
            && (!Succeeds(s, s', p) && !GaveWay(s, s', c, p) ==> s' == s)
  {
    var s, s', c := ss[n], ss[n + 1], es[n].c;
    RunKeeps(us, ss, es, n);
    RunKeeps(us, ss, es, n + 1);
    StepDoes(us, ss, es, n);
    WritableFate(us, s, c, es[n].wrote, es[n].heard, s');
  }

  lemma WritableFate(us: Uid, s: NodeState, c: Token, wrote: Wrote, heard: Heard, s': NodeState)
    requires Inv(s) && Inv(s') && IsHandshake(s, c) && s.states[c].Candidate?
    requires Does(s, Writable(us, s, c, wrote, heard), s') && s' == WritableCandidate(us, s, c, wrote, heard)
    ensures s.states[c].peer in s.cm
    ensures var p := s.states[c].peer;
            && (Succeeds(s, s', p) <==> !InService(s.cm, p) && if us > p then wrote.Sent? else heard.Chosen?)
            && (GaveWay(s, s', c, p) <==> InService(s.cm, p) || if us > p then wrote.Failed? else heard.Unexpected?)
            && (!Succeeds(s, s', p) && !GaveWay(s, s', c, p) ==> s' == s)
  {
    var p := s.states[c].peer;
    KnownRemains(s, p);
    assert Agrees(s.states, s.cm, p) && c in Handshakes(s.states, p);
    var f := Writable(us, s, c, wrote, heard);
    if InService(s.cm, p) || (if us > p then wrote.Failed? else heard.Unexpected?) {
      FailedGaveWay(s, s', c);
    } else if if us > p then wrote.Sent? else heard.Chosen? {
      assert f.said[0] == ConnectSuccess(p);
      assert s'.events[|s.events|] == f.said[0];
    }
  }
}
