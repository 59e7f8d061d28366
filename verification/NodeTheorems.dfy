/** What the invariant means to a user of the node, and where the code depends on its surroundings. */
module NodeTheorems {
  import opened Options
  import opened ConnMap
  import opened Node
  import opened NodeInv
  import opened Family
  import opened ConnectOps
  import opened BootstrapOps
  import opened NodeRuns

  // ----- The map -----

  /** In every state of every run, for every peer: the count is the number of live handshakes, so
      it is never negative; the active connection is the one live connection in service; and there
      is an entry exactly when there is a handshake or a connection. */
  lemma MapAccounting(us: Uid, ss: seq<NodeState>, es: seq<Step>, n: nat, p: Uid)
    requires IsRun(us, ss, es) && n < |ss|
    ensures var s := ss[n];
            && (p in s.cm <==> Handshakes(s.states, p) != {} || Actives(s.states, p) != {})
            && (p in s.cm ==> s.cm[p].handshaking == |Handshakes(s.states, p)|)
            && (forall t :: t in Actives(s.states, p) <==> p in s.cm && s.cm[p].active == Some(t))
  {
    RunKeeps(us, ss, es, n);
    assert Agrees(ss[n].states, ss[n].cm, p);
  }

  // ----- The events of a peer -----

  /** Every up event comes when no earlier one is still open; every message and every loss comes
      while one is: the events of a peer are sessions of one up event, messages and one loss, the
      last of them perhaps not over. */
  ghost predicate InSessions(events: seq<Event>, p: Uid) {
    && (forall i, j :: 0 <= j < i < |events| && IsUp(events[i], p) && IsUp(events[j], p) ==>
          LostBetween(events, j, i, p))
    && (forall i :: 0 <= i < |events| && events[i] in {NewMessage(p), LostPeer(p)} ==> OpenAt(events, i, p))
  }

  ghost predicate LostBetween(events: seq<Event>, j: nat, i: nat, p: Uid)
    requires i <= |events|
  {
    exists k :: j < k < i && events[k] == LostPeer(p)
  }

  /** Before position `i` there is an up event with no loss since. */
  ghost predicate OpenAt(events: seq<Event>, i: nat, p: Uid)
    requires i <= |events|
  {
    exists j :: 0 <= j < i && IsUp(events[j], p) && !LostBetween(events, j, i, p)
  }

  lemma PrefixBetween(events: seq<Event>, n: nat, j: nat, i: nat, p: Uid)
    requires j <= i <= n <= |events|
    ensures LostBetween(events[..n], j, i, p) <==> LostBetween(events, j, i, p)
  {
    if LostBetween(events, j, i, p) {
      var k :| j < k < i && events[k] == LostPeer(p);
      assert events[..n][k] == LostPeer(p);
    }
  }

  lemma PrefixOpen(events: seq<Event>, n: nat, i: nat, p: Uid)
    requires i <= n <= |events|
    ensures OpenAt(events[..n], i, p) <==> OpenAt(events, i, p)
  {
    forall j | 0 <= j < i
      ensures events[..n][j] == events[j] && (LostBetween(events[..n], j, i, p) <==> LostBetween(events, j, i, p))
    {
      PrefixBetween(events, n, j, i, p);
    }
    if OpenAt(events, i, p) {
      var j :| 0 <= j < i && IsUp(events[j], p) && !LostBetween(events, j, i, p);
      assert IsUp(events[..n][j], p);
    }
    if OpenAt(events[..n], i, p) {
      var j :| 0 <= j < i && IsUp(events[..n][j], p) && !LostBetween(events[..n], j, i, p);
      assert IsUp(events[j], p);
    }
  }

  /** The automaton is up exactly when the events leave a session open. */
  lemma {:induction false} UpMeansOpen(events: seq<Event>, p: Uid)
    requires PhaseOf(events, p) != Wrong
    ensures PhaseOf(events, p) == Up <==> OpenAt(events, |events|, p)
    decreases |events|
  {
    if events != [] {
      var n := |events| - 1;
      var e := events[n];
      UpMeansOpen(events[..n], p);
      PrefixOpen(events, n, n, p);
      forall j | 0 <= j < n
        ensures LostBetween(events, j, |events|, p) <==> LostBetween(events, j, n, p) || e == LostPeer(p)
      {
        if e == LostPeer(p) { assert events[n] == LostPeer(p); }
        if LostBetween(events, j, n, p) {
          var k :| j < k < n && events[k] == LostPeer(p);
        }
      }
      if IsUp(e, p) {
        assert !LostBetween(events, n, |events|, p);
      }
      if OpenAt(events, n, p) && e != LostPeer(p) {
        var j :| 0 <= j < n && IsUp(events[j], p) && !LostBetween(events, j, n, p);
        assert !LostBetween(events, j, |events|, p);
      }
    }
  }

  lemma TwoUps(events: seq<Event>, p: Uid, i: nat, j: nat)
    requires PhaseOf(events, p) != Wrong && j < i < |events| && IsUp(events[i], p) && IsUp(events[j], p)
    requires InSessions(events[..|events| - 1], p)
    ensures LostBetween(events, j, i, p)
  {
    var n := |events| - 1;
    var es := events[..n];
    assert es[j] == events[j];
    PrefixBetween(events, n, j, i, p);
    if i == n {
      UpMeansOpen(es, p);
      assert !OpenAt(es, n, p);
    } else {
      assert es[i] == events[i];
    }
  }

  lemma {:induction false} NotWrongMeansSessions(events: seq<Event>, p: Uid)
    requires PhaseOf(events, p) != Wrong
    ensures InSessions(events, p)
    decreases |events|
  {
    if events != [] {
      var n := |events| - 1;
      var es := events[..n];
      NotWrongMeansSessions(es, p);
      UpMeansOpen(es, p);
      forall i, j | 0 <= j < i < |events| && IsUp(events[i], p) && IsUp(events[j], p)
        ensures LostBetween(events, j, i, p)
      {
        TwoUps(events, p, i, j);
      }
      forall i | 0 <= i < |events| && events[i] in {NewMessage(p), LostPeer(p)} ensures OpenAt(events, i, p) {
        InAnOpenSession(events, p, i);
      }
    }
  }

  lemma InAnOpenSession(events: seq<Event>, p: Uid, i: nat)
    requires PhaseOf(events, p) != Wrong && i < |events| && events[i] in {NewMessage(p), LostPeer(p)}
    requires InSessions(events[..|events| - 1], p)
    ensures OpenAt(events, i, p)
  {
    var n := |events| - 1;
    PrefixOpen(events, n, i, p);
    if i < n {
      assert events[..n][i] == events[i];
    } else {
      UpMeansOpen(events[..n], p);
    }
  }

  lemma {:induction false} SessionsMeansNotWrong(events: seq<Event>, p: Uid)
    requires InSessions(events, p)
    ensures PhaseOf(events, p) != Wrong
    decreases |events|
  {
    if events != [] {
      var n := |events| - 1;
      PrefixSessions(events, n, p);
      SessionsMeansNotWrong(events[..n], p);
      UpMeansOpen(events[..n], p);
      PrefixOpen(events, n, n, p);
    }
  }

  lemma PrefixSessions(events: seq<Event>, n: nat, p: Uid)
    requires InSessions(events, p) && n <= |events|
    ensures InSessions(events[..n], p)
  {
    var es := events[..n];
    forall i, j | 0 <= j < i < |es| && IsUp(es[i], p) && IsUp(es[j], p) ensures LostBetween(es, j, i, p) {
      assert IsUp(events[i], p) && IsUp(events[j], p);
      PrefixBetween(events, n, j, i, p);
    }
    forall i | 0 <= i < |es| && es[i] in {NewMessage(p), LostPeer(p)} ensures OpenAt(es, i, p) {
      assert events[i] in {NewMessage(p), LostPeer(p)};
      PrefixOpen(events, n, i, p);
    }
  }

  /** In every run the events of every peer form sessions, and the last is open exactly while the
      peer has a connection in service. */
  lemma PeerEvents(us: Uid, ss: seq<NodeState>, es: seq<Step>, n: nat, p: Uid)
    requires IsRun(us, ss, es) && n < |ss|
    ensures InSessions(ss[n].events, p)
    ensures OpenAt(ss[n].events, |ss[n].events|, p) <==> Actives(ss[n].states, p) != {}
  {
    RunKeeps(us, ss, es, n);
    NotWrongMeansSessions(ss[n].events, p);
    UpMeansOpen(ss[n].events, p);
  }

  // ----- The outcome of a bootstrap -----

  predicate IsOutcome(e: Event) {
    e.BootstrapConnect? || e.BootstrapFailed? || e.BootstrapStopped?
  }

  ghost predicate OutcomeBetween(events: seq<Event>, j: nat, i: nat)
    requires i <= |events|
  {
    exists k :: j < k < i && IsOutcome(events[k])
  }

  /** Before position `i` there is a start with no outcome since. */
  ghost predicate RunningAt(events: seq<Event>, i: nat)
    requires i <= |events|
  {
    exists j :: 0 <= j < i && events[j] == BootstrapStarted && !OutcomeBetween(events, j, i)
  }

  /** Each start is followed by an outcome before the next start, and each outcome closes a start
      that had none yet: exactly one outcome per start that has ended. */
  ghost predicate OneOutcomeEach(events: seq<Event>) {
    && (forall i, j :: 0 <= j < i < |events| && events[i] == BootstrapStarted && events[j] == BootstrapStarted ==>
          OutcomeBetween(events, j, i))
    && (forall i :: 0 <= i < |events| && IsOutcome(events[i]) ==> RunningAt(events, i))
  }

  lemma PrefixOutcome(events: seq<Event>, n: nat, j: nat, i: nat)
    requires j <= i <= n <= |events|
    ensures OutcomeBetween(events[..n], j, i) <==> OutcomeBetween(events, j, i)
  {
    if OutcomeBetween(events, j, i) {
      var k :| j < k < i && IsOutcome(events[k]);
      assert IsOutcome(events[..n][k]);
    }
  }

  lemma PrefixRunning(events: seq<Event>, n: nat, i: nat)
    requires i <= n <= |events|
    ensures RunningAt(events[..n], i) <==> RunningAt(events, i)
  {
    forall j | 0 <= j < i
      ensures events[..n][j] == events[j] && (OutcomeBetween(events[..n], j, i) <==> OutcomeBetween(events, j, i))
    {
      PrefixOutcome(events, n, j, i);
    }
    if RunningAt(events, i) {
      var j :| 0 <= j < i && events[j] == BootstrapStarted && !OutcomeBetween(events, j, i);
      assert events[..n][j] == BootstrapStarted;
    }
    if RunningAt(events[..n], i) {
      var j :| 0 <= j < i && events[..n][j] == BootstrapStarted && !OutcomeBetween(events[..n], j, i);
      assert events[j] == BootstrapStarted;
    }
  }

  lemma {:induction false} RunningMeansOpen(events: seq<Event>)
    requires BsPhaseOf(events) != Mistaken
    ensures BsPhaseOf(events) == Running <==> RunningAt(events, |events|)
    decreases |events|
  {
    if events != [] {
      var n := |events| - 1;
      var e := events[n];
      RunningMeansOpen(events[..n]);
      PrefixRunning(events, n, n);
      forall j | 0 <= j < n
        ensures OutcomeBetween(events, j, |events|) <==> OutcomeBetween(events, j, n) || IsOutcome(e)
      {
        if IsOutcome(e) { assert IsOutcome(events[n]); }
        if OutcomeBetween(events, j, n) {
          var k :| j < k < n && IsOutcome(events[k]);
        }
      }
      if e == BootstrapStarted {
        assert !OutcomeBetween(events, n, |events|);
      }
      if RunningAt(events, n) && !IsOutcome(e) {
        var j :| 0 <= j < n && events[j] == BootstrapStarted && !OutcomeBetween(events, j, n);
        assert !OutcomeBetween(events, j, |events|);
      }
    }
  }

  lemma {:induction false} NotMistakenMeansOneOutcome(events: seq<Event>)
    requires BsPhaseOf(events) != Mistaken
    ensures OneOutcomeEach(events)
    decreases |events|
  {
    if events != [] {
      var n := |events| - 1;
      var es := events[..n];
      NotMistakenMeansOneOutcome(es);
      RunningMeansOpen(es);
      forall i, j | 0 <= j < i < |events| && events[i] == BootstrapStarted && events[j] == BootstrapStarted
        ensures OutcomeBetween(events, j, i)
      {
        assert es[j] == events[j];
        PrefixOutcome(events, n, j, i);
        if i == n {
          assert !RunningAt(es, n);
        } else {
          assert es[i] == events[i];
        }
      }
      forall i | 0 <= i < |events| && IsOutcome(events[i]) ensures RunningAt(events, i) {
        PrefixRunning(events, n, i);
        if i < n { assert es[i] == events[i]; }
      }
    }
  }

  /** In every run each bootstrap that has ended has had exactly one outcome; one that has not has
      discovery or a try pending, its discovery timer armed exactly while discovery is pending; and
      when there is none, no try is left. */
  lemma BootstrapOutcomes(us: Uid, ss: seq<NodeState>, es: seq<Step>, n: nat)
    requires IsRun(us, ss, es) && n < |ss|
    ensures OneOutcomeEach(ss[n].events)
    ensures RunningAt(ss[n].events, |ss[n].events|) <==> BOOTSTRAP in ss[n].states
    ensures BOOTSTRAP in ss[n].states ==>
              var b := ss[n].states[BOOTSTRAP];
              b.Bootstrapping? && (b.discovering || b.tries != {})
                  && (b.discovering <==> (BOOTSTRAP, DISCOVERY) in ss[n].timers)
    ensures BOOTSTRAP !in ss[n].states ==> forall k :: k in ss[n].states ==> !ss[n].states[k].TryPeer?
  {
    RunKeeps(us, ss, es, n);
    var s := ss[n];
    NotMistakenMeansOneOutcome(s.events);
    RunningMeansOpen(s.events);
    if BOOTSTRAP in s.states {
      assert Waiting(s.states[BOOTSTRAP]);
    } else {
      forall k | k in s.states ensures !s.states[k].TryPeer? { assert Kin(s.states, k); }
    }
  }

  /** A try that is denied leaves its bootstrap. A denial for a wrong name hash or for not being reachable,
      which every other peer would give too, or the last one, ends the bootstrap, with every other try,
      and reports that it failed; after any other there is one try fewer, every other state is still there
      and nothing is reported. */
  lemma DenialOutcome(s: NodeState, k: Token, reason: Option<M.DenyReason>, r: Reads)
    requires Inv(s) && k in s.states && s.states[k].TryPeer?
    ensures IsBootstrapping(s) && k in s.states[BOOTSTRAP].tries
    ensures var s', tries := TryDone(s, k, Denied(reason), true, r), s.states[BOOTSTRAP].tries;
            if reason in {Some(M.InvalidNameHash), Some(M.FailedExternalReachability)} || tries == {k} then
              && s'.events == s.events + [BootstrapFailed]
              && s'.states.Keys == s.states.Keys - tries - {BOOTSTRAP}
            else
              && s'.events == s.events
              && s'.states.Keys == s.states.Keys - {k}
              && IsBootstrapping(s') && s'.states[BOOTSTRAP].tries == tries - {k} && tries - {k} != {}
  {
    assert Kin(s.states, k) && k in KidsOf(s.states, BOOTSTRAP);
    var tries := s.states[BOOTSTRAP].tries;
    assert tries - {k} == {} <==> tries == {k};
  }

  /** A grant ends the bootstrap and every other try, and puts the try's own socket, which is not among
      those closed, in service. */
  lemma GrantOutcome(s: NodeState, k: Token, u: Uid, messages: nat)
    requires Inv(s) && k in s.states && s.states[k].TryPeer? && u !in s.cm
    ensures IsBootstrapping(s)
    ensures var s', tries := TryDone(s, k, Granted(u), true, Reads(messages, false)), s.states[BOOTSTRAP].tries;
            && s'.states.Keys == s.states.Keys - tries - {BOOTSTRAP} + {k}
            && s'.states[k] == Active(u, AsNode) && s'.cm == s.cm[u := ConnectionId(Some(k), 0)]
            && s'.events == s.events + [BootstrapConnect(u)] + News(u, messages)
  {
    assert Kin(s.states, k) && k in KidsOf(s.states, BOOTSTRAP);
    TriesAre(s);
  }

  // ----- Winning -----

  /** A writable candidate enters service only if nothing is, and then only by right: the larger id by
      having sent its choice, the smaller by having heard one. */
  lemma WinsOnlyByRight(us: Uid, s: NodeState, c: Token, wrote: Wrote, heard: Heard)
    requires Inv(s) && IsHandshake(s, c) && s.states[c].Candidate?
    ensures var s' := WritableCandidate(us, s, c, wrote, heard);
            c in s'.states && s'.states[c].Active? ==>
              && !InService(s.cm, s.states[c].peer)
              && (us > s.states[c].peer ==> wrote.Sent?)
              && (us <= s.states[c].peer ==> heard.Chosen?)
  {
    assert Kin(s.states, c);
  }

  /** Nothing of an attempt is left when it ends. */
  lemma NoOrphans(s: NodeState, t: Token)
    requires Inv(s) && IsAttempt(s, t)
    ensures var s' := EndAttempt(s, t);
            t !in s'.states && forall c :: c in s'.states ==> ParentOf(s'.states[c]) != Some(t)
  {
    EndAttemptKeeps(s, t);
    var s' := EndAttempt(s, t);
    NoKidsOfAbsent(s'.states, t);
    forall c | c in s'.states ensures ParentOf(s'.states[c]) != Some(t) {
      assert c !in KidsOf(s'.states, t);
    }
  }
}
