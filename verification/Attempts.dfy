/** What a user hears of an attempt to connect, from its start to its end, in every run of a node. */
module Attempts {
  import opened Options
  import opened ConnMap
  import opened Node
  import opened NodeInv
  import opened ConnectOps
  import opened NodeRuns
  import opened Bystanders

  // ----- Its start -----

  predicate NoneOk(oks: seq<bool>) {
    forall i :: 0 <= i < |oks| ==> !oks[i]
  }

  /** How many sockets fail to register before the first that does. */
  function Leading(oks: seq<bool>): nat {
    if oks == [] || oks[0] then 0 else 1 + Leading(oks[1..])
  }

  lemma {:induction false} LeadingAppend(oks: seq<bool>, ok: bool)
    ensures Leading(oks + [ok]) == Leading(oks) + (if NoneOk(oks) && !ok then 1 else 0)
    decreases |oks|
  {
    if oks == [] {
      assert ([] + [ok])[1..] == [];
    } else {
      assert (oks + [ok])[1..] == oks[1..] + [ok];
      LeadingAppend(oks[1..], ok);
      if !oks[0] { assert NoneOk(oks[1..]) ==> NoneOk(oks) by {
        forall i | 0 <= i < |oks| && NoneOk(oks[1..]) ensures !oks[i] { assert i > 0 ==> oks[i] == oks[1..][i - 1]; }
      } }
      assert NoneOk(oks) ==> NoneOk(oks[1..]);
    }
  }

  function Failures(p: Uid, n: nat): seq<Event> {
    seq(n, _ => ConnectFailure(p))
  }

  /** An attempt loses its timeout if and only if its first socket could not be registered; it has no
      sub-state if and only if none could be. */
  lemma {:induction false} LaunchOutcome(s: NodeState, t: Token, oks: seq<bool>)
    requires IsAttempt(s, t) && t < s.counter && s.states[t].children == {} && s.states[t].armed
    ensures var s' := LaunchExchanges(s, t, oks);
            && (s'.states[t].armed <==> oks == [] || oks[0])
            && (s'.states[t].children == {} <==> NoneOk(oks))
            && (NoneOk(oks) ==> s'.cm == s.cm)
  {
    if oks != [] {
      var front, last := oks[..|oks| - 1], oks[|oks| - 1];
      LaunchOutcome(s, t, front);
      assert NoneOk(oks) <==> NoneOk(front) && !last;
      assert front != [] ==> front[0] == oks[0];
    }
  }

  /** Meanwhile it reports failure once for every socket that fails before the first that does not,
      unless the map knows the peer. */
  lemma {:induction false} LaunchReports(s: NodeState, t: Token, oks: seq<bool>)
    requires IsAttempt(s, t) && t < s.counter && s.states[t].children == {} && s.states[t].armed
    ensures var p := s.states[t].peer;
            LaunchExchanges(s, t, oks).events == s.events + (if p in s.cm then [] else Failures(p, Leading(oks)))
  {
    var p := s.states[t].peer;
    if oks == [] {
      assert s.events + Failures(p, 0) == s.events && s.events + [] == s.events;
    } else {
      var front, last := oks[..|oks| - 1], oks[|oks| - 1];
      LaunchReports(s, t, front);
      LaunchOutcome(s, t, front);
      LeadingAppend(front, last);
      assert front + [last] == oks;
      var k := Leading(front);
      assert s.events + Failures(p, k + 1) == (s.events + Failures(p, k)) + [ConnectFailure(p)];
      OneMoreReport(LaunchExchanges(s, t, front), t, last);
    }
  }

  lemma OneMoreReport(s: NodeState, t: Token, ok: bool)
    requires IsAttempt(s, t)
    ensures var p := s.states[t].peer;
            LaunchExchange(s, t, ok).events ==
              if !ok && s.states[t].children == {} && p !in s.cm then s.events + [ConnectFailure(p)] else s.events
  {
  }

  /** An attempt that goes on to live reports failure as it starts if and only if its first socket
      cannot be registered and the map does not know the peer. */
  lemma StartReports(s: NodeState, p: Uid, oks: seq<bool>)
    ensures StartAttempt(s, p, oks).events == s.events + (if p in s.cm then [] else Failures(p, Leading(oks)))
    ensures ConnectFailure(p) in (if p in s.cm then [] else Failures(p, Leading(oks))) <==>
            p !in s.cm && oks != [] && !oks[0]
  {
    LaunchReports(s.Skip().Put(s.counter, Connecting(p, {}, true)).Arm(s.counter, 0), s.counter, oks);
    if p !in s.cm && oks != [] && !oks[0] { assert Failures(p, Leading(oks))[0] == ConnectFailure(p); }
  }

  // ----- A leak -----

  /** An attempt left with neither timeout nor sub-state stays in the table for ever, whatever happens. */
  lemma {:induction false} LeakIsForever(us: Uid, ss: seq<NodeState>, es: seq<Step>, i: nat, n: nat, t: Token, p: Uid)
    requires IsRun(us, ss, es) && i <= n < |ss|
    requires t in ss[i].states && ss[i].states[t] == Connecting(p, {}, false)
    ensures t in ss[n].states && ss[n].states[t] == Connecting(p, {}, false)
    decreases n
  {
    if i < n {
      LeakIsForever(us, ss, es, i, n - 1, t, p);
      RunKeeps(us, ss, es, n - 1);
      Unreachable(ss[n - 1], es[n - 1], t, p);
      BystanderStays(us, ss[n - 1], es[n - 1], t);
    }
  }

  /** No step can concern such an attempt. */
  lemma Unreachable(s: NodeState, e: Step, t: Token, p: Uid)
    requires Inv(s) && Enabled(s, e) && t in s.states && s.states[t] == Connecting(p, {}, false)
    ensures !Concerns(s, e, t)
  {
    assert KidsOf(s.states, t) == {};
    assert 0 !in TimersOf(s.states[t]);
  }

  /** So starting an attempt leaves one with neither timeout nor sub-state, and that for ever, if and only
      if it has sockets and none of them can be registered. */
  lemma AttemptLeaks(us: Uid, ss: seq<NodeState>, es: seq<Step>, i: nat, n: nat)
    requires IsRun(us, ss, es) && i < |es| && es[i].Connect? && i < n < |ss|
    ensures var t, p, oks := ss[i].counter, es[i].p, es[i].oks;
            (t in ss[i + 1].states && ss[i + 1].states[t] == Connecting(p, {}, false) <==> oks != [] && NoneOk(oks))
    ensures var t, p, oks := ss[i].counter, es[i].p, es[i].oks;
            oks != [] && NoneOk(oks) ==> t in ss[n].states && ss[n].states[t] == Connecting(p, {}, false)
  {
    var s, t, p, oks := ss[i], ss[i].counter, es[i].p, es[i].oks;
    LaunchOutcome(s.Skip().Put(t, Connecting(p, {}, true)).Arm(t, 0), t, oks);
    if oks != [] && NoneOk(oks) { LeakIsForever(us, ss, es, i + 1, n, t, p); }
  }

  // ----- A timeout that is lost -----

  /** No step gives an attempt its timeout back, nor takes it, or its last sub-state, without ending it. */
  lemma KeepsArmed(us: Uid, s: NodeState, e: Step, t: Token)
    requires Inv(s) && Enabled(s, e) && IsAttempt(s, t)
    ensures IsAttempt(Dispatch(us, s, e), t) ==>
              && Dispatch(us, s, e).states[t].armed == s.states[t].armed
              && (s.states[t].children != {} ==> Dispatch(us, s, e).states[t].children != {})
  {
    if !Concerns(s, e, t) {
      BystanderStays(us, s, e, t);
    } else if !e.AttemptTimeout? {
      var c := ChildOf(s, e, t);
      HandshakeStep(us, s, e);
      ChildKeepsArmed(s, c, t, if Winner(us, s, e).Some? then Winner(us, s, e).value.1 else Reads(0, false));
    }
  }

  lemma ChildKeepsArmed(s: NodeState, c: Token, t: Token, r: Reads)
    requires IsHandshake(s, c) && IsAttempt(s, t) && ParentOf(s.states[c]) == Some(t)
    ensures IsAttempt(FailHandshake(s, c), t) ==>
              FailHandshake(s, c).states[t].armed == s.states[t].armed && FailHandshake(s, c).states[t].children != {}
    ensures s.states[c].Candidate? ==> !IsAttempt(WinCandidate(s, c, true, r), t)
  {
  }

  ghost predicate AliveSince(ss: seq<NodeState>, t: Token, i: nat, n: nat)
    requires n < |ss|
  {
    forall j :: i < j <= n ==> IsAttempt(ss[j], t)
  }

  lemma ArmedAtFirst(us: Uid, s: NodeState, e: Step)
    requires Inv(s) && e.Connect? && Enabled(s, e) && IsAttempt(Dispatch(us, s, e), s.counter)
    ensures Dispatch(us, s, e).states[s.counter].armed <==> e.oks == [] || e.oks[0]
    ensures Dispatch(us, s, e).states[s.counter].children == {} <==> NoneOk(e.oks)
  {
    LaunchOutcome(s.Skip().Put(s.counter, Connecting(e.p, {}, true)).Arm(s.counter, 0), s.counter, e.oks);
  }

  lemma {:induction false} ArmedSince(us: Uid, ss: seq<NodeState>, es: seq<Step>, i: nat, n: nat)
    requires IsRun(us, ss, es) && i < |es| && es[i].Connect? && i < n < |ss| && AliveSince(ss, ss[i].counter, i, n)
    ensures IsAttempt(ss[n], ss[i].counter)
    ensures ss[n].states[ss[i].counter].armed <==> es[i].oks == [] || es[i].oks[0]
    decreases n
  {
    var t := ss[i].counter;
    assert IsAttempt(ss[n], t);
    if n == i + 1 {
      assert ss[n].states[t].armed <==> es[i].oks == [] || es[i].oks[0] by {
        RunKeeps(us, ss, es, i);
        ArmedAtFirst(us, ss[i], es[i]);
      }
    } else {
      assert AliveSince(ss, t, i, n - 1);
      ArmedSince(us, ss, es, i, n - 1);
      assert ss[n].states[t].armed == ss[n - 1].states[t].armed by {
        RunKeeps(us, ss, es, n - 1);
        KeepsArmed(us, ss[n - 1], es[n - 1], t);
      }
    }
  }

  lemma {:induction false} ChildlessSince(us: Uid, ss: seq<NodeState>, es: seq<Step>, i: nat, n: nat)
    requires IsRun(us, ss, es) && i < |es| && es[i].Connect? && i < n < |ss| && AliveSince(ss, ss[i].counter, i, n)
    ensures IsAttempt(ss[n], ss[i].counter)
    ensures ss[n].states[ss[i].counter].children == {} ==> NoneOk(es[i].oks)
    decreases n
  {
    var t := ss[i].counter;
    assert IsAttempt(ss[n], t);
    if n == i + 1 {
      assert ss[n].states[t].children == {} ==> NoneOk(es[i].oks) by {
        RunKeeps(us, ss, es, i);
        ArmedAtFirst(us, ss[i], es[i]);
      }
    } else {
      assert AliveSince(ss, t, i, n - 1);
      ChildlessSince(us, ss, es, i, n - 1);
      assert ss[n].states[t].children == {} ==> ss[n - 1].states[t].children == {} by {
        RunKeeps(us, ss, es, n - 1);
        KeepsArmed(us, ss[n - 1], es[n - 1], t);
      }
    }
  }

  /** In every run, for as long as an attempt lives, its timeout can fire if and only if its first socket
      could be registered or it had none. Without it nothing is ever due that would end the attempt: no
      sub-state has a timer of its own. */
  lemma TimeoutLost(us: Uid, ss: seq<NodeState>, es: seq<Step>, i: nat, n: nat)
    requires IsRun(us, ss, es) && i < |es| && es[i].Connect? && i < n < |ss| && AliveSince(ss, ss[i].counter, i, n)
    ensures Enabled(ss[n], AttemptTimeout(ss[i].counter)) <==> es[i].oks == [] || es[i].oks[0]
    ensures forall c :: c in KidsOf(ss[n].states, ss[i].counter) ==> forall id :: (c, id) !in ss[n].timers
  {
    ArmedSince(us, ss, es, i, n);
    RunKeeps(us, ss, es, n);
    TimeoutIsArmed(ss[n], ss[i].counter);
  }

  /** And at whatever moment of its life one looks, it has neither timeout nor sub-state if and only if it
      had sockets and none of them could be registered: no attempt comes to that later. */
  lemma LeakedExactly(us: Uid, ss: seq<NodeState>, es: seq<Step>, i: nat, n: nat)
    requires IsRun(us, ss, es) && i < |es| && es[i].Connect? && i < n < |ss| && AliveSince(ss, ss[i].counter, i, n)
    ensures var st, oks := ss[n].states[ss[i].counter], es[i].oks;
            !st.armed && st.children == {} <==> oks != [] && NoneOk(oks)
  {
    ArmedSince(us, ss, es, i, n);
    ChildlessSince(us, ss, es, i, n);
    if es[i].oks != [] && NoneOk(es[i].oks) { AttemptLeaks(us, ss, es, i, n); }
  }

  lemma TimeoutIsArmed(s: NodeState, t: Token)
    requires Inv(s) && IsAttempt(s, t)
    ensures Enabled(s, AttemptTimeout(t)) <==> s.states[t].armed
    ensures forall c :: c in KidsOf(s.states, t) ==> forall id :: (c, id) !in s.timers
  {
    assert (t, 0) in s.timers <==> 0 in TimersOf(s.states[t]);
    forall c | c in KidsOf(s.states, t) ensures forall id :: (c, id) !in s.timers {
      assert Kin(s.states, c) && TimersOf(s.states[c]) == {};
    }
  }

  /** An attempt that has lost its timeout ends only through what one of its sockets does. */
  lemma EndsThroughSocket(us: Uid, s: NodeState, e: Step, t: Token)
    requires Inv(s) && Enabled(s, e) && IsAttempt(s, t) && !s.states[t].armed
    ensures t !in Dispatch(us, s, e).states ==> OfHandshake(e) && e.c in KidsOf(s.states, t)
  {
    OnlySocketsConcern(s, e, t);
    if !Concerns(s, e, t) { BystanderStays(us, s, e, t); }
  }

  lemma OnlySocketsConcern(s: NodeState, e: Step, t: Token)
    requires Inv(s) && Enabled(s, e) && IsAttempt(s, t) && !s.states[t].armed
    ensures Concerns(s, e, t) ==> OfHandshake(e) && e.c in KidsOf(s.states, t)
  {
    TimeoutIsArmed(s, t);
    if Concerns(s, e, t) {
      var c := ChildOf(s, e, t);
      assert c in KidsOf(s.states, t);
    }
  }

  /** So while its sockets are silent it stays as it is, however long that is. */
  lemma {:induction false} SilentIsForever(us: Uid, ss: seq<NodeState>, es: seq<Step>, i: nat, n: nat, t: Token)
    requires IsRun(us, ss, es) && i <= n < |ss| && IsAttempt(ss[i], t) && !ss[i].states[t].armed
    requires forall j :: i <= j < n ==> !(OfHandshake(es[j]) && es[j].c in KidsOf(ss[j].states, t))
    ensures IsAttempt(ss[n], t) && ss[n].states[t] == ss[i].states[t]
    decreases n
  {
    if i < n {
      SilentIsForever(us, ss, es, i, n - 1, t);
      RunKeeps(us, ss, es, n - 1);
      OnlySocketsConcern(ss[n - 1], es[n - 1], t);
      BystanderStays(us, ss[n - 1], es[n - 1], t);
    }
  }

  /** Such an attempt: its first socket could not be registered, its second waits for an answer, and no
      timer is running. */
  lemma WaitsForEver() returns (ss: seq<NodeState>, es: seq<Step>)
    ensures IsRun(5, ss, es) && es == [Connect(1, [false, true])]
    ensures IsAttempt(ss[1], ss[0].counter) && ss[1].states[ss[0].counter].children != {} && ss[1].timers == {}
  {
    FirstSocketFails();
    ss, es := [Idle, AfterStart], [Connect(1, [false, true])];
    assert 8 in AfterStart.states[6].children;
  }

  // ----- Its end -----

  /** The candidate that a step puts in service, and how its first read goes. */
  function Winner(us: Uid, s: NodeState, e: Step): Option<(Token, Reads)> {
    match e
    case CandidateReadable(c, Chosen(r)) => Some((c, r))
    case CandidateWritable(c, wrote, heard) =>
      if c !in s.states || !s.states[c].Candidate? || InService(s.cm, s.states[c].peer) then None
      else if us > s.states[c].peer then if wrote.Sent? then Some((c, wrote.first)) else None
      else if heard.Chosen? then Some((c, heard.first)) else None
    case _ => None
  }

  ghost predicate NothingLeft(s: NodeState, p: Uid) {
    Handshakes(s.states, p) == {} && Actives(s.states, p) == {}
  }

  function WinnersNews(p: Uid, r: Reads): seq<Event> {
    [ConnectSuccess(p)] + News(p, r.messages) + (if r.failed then [LostPeer(p)] else [])
  }

  /** The step that a candidate wins reports success and what its first read brought, and no failure. */
  lemma WinnerReports(s: NodeState, c: Token, r: Reads)
    requires Inv(s) && IsHandshake(s, c) && s.states[c].Candidate?
    ensures WinCandidate(s, c, true, r).events == s.events + WinnersNews(s.states[c].peer, r)
  {
    assert Kin(s.states, c);
    var Candidate(p, parent) := s.states[c];
    var up, news, lost := [ConnectSuccess(p)], News(p, r.messages), if r.failed then [LostPeer(p)] else [];
    assert s.events + (up + news + lost) == ((s.events + up) + news) + lost;
    assert ((s.events + up) + news) + [] == (s.events + up) + news;
    if parent.Some? { WinnerSurvives(s, c, parent.value); }
  }

  /** A sub-state that fails takes its attempt with it exactly when it was the last, and then the
      failure rule applies; otherwise nothing is said. */
  lemma FailReports(s: NodeState, c: Token)
    requires Inv(s) && IsHandshake(s, c)
    ensures var t, s' := ParentOf(s.states[c]), FailHandshake(s, c);
            if t.Some? && t.value !in s'.states
            then
              var p := s.states[c].peer;
              s'.events == s.events + (if NothingLeft(s', p) then [ConnectFailure(p)] else [])
            else s'.events == s.events
  {
    var p := s.states[c].peer;
    assert Kin(s.states, c);
    if ParentOf(s.states[c]).Some? {
      var t := ParentOf(s.states[c]).value;
      LoseChildKeeps(s, c, t);
      var s1 := Disown(s.Remove(c).(cm := LeaveHandshake(s.cm, p)), c, t);
      if s1.states[t].children == {} { FailureRule(s1, t); }
    }
  }

  /** In every run, when an attempt leaves the table: if one of its candidates won, what is added is its
      success and first news; otherwise it is a failure if nothing with the peer is left, or nothing. */
  lemma AttemptEnds(us: Uid, ss: seq<NodeState>, es: seq<Step>, n: nat, t: Token)
    requires IsRun(us, ss, es) && n < |es| && IsAttempt(ss[n], t) && t !in ss[n + 1].states
    ensures var p, w := ss[n].states[t].peer, Winner(us, ss[n], es[n]);
            ss[n + 1].events == ss[n].events +
              (if w.Some? then WinnersNews(p, w.value.1)
               else if NothingLeft(ss[n + 1], p) then [ConnectFailure(p)]
               else [])
  {
    RunKeeps(us, ss, es, n);
    EndStep(us, ss[n], es[n], t);
  }

  predicate OfHandshake(e: Step) {
    e.ExchangeReply? || e.HandshakeError? || e.CandidateWritable? || e.CandidateReadable?
  }

  /** A step about a sub-state: it wins, or it fails, or nobody is told and no attempt ends. */
  lemma HandshakeStep(us: Uid, s: NodeState, e: Step)
    requires Inv(s) && Enabled(s, e) && OfHandshake(e)
    ensures var s', w := Dispatch(us, s, e), Winner(us, s, e);
            if w.Some? then w.value.0 == e.c && s.states[e.c].Candidate? && s' == WinCandidate(s, e.c, true, w.value.1)
            else || s' == FailHandshake(s, e.c)
                 || s' == s
                 || s' == s.Put(e.c, Candidate(s.states[e.c].peer, ParentOf(s.states[e.c])))
  {
    assert Kin(s.states, e.c);
  }

  lemma EndStep(us: Uid, s: NodeState, e: Step, t: Token)
    requires Inv(s) && Enabled(s, e) && IsAttempt(s, t) && t !in Dispatch(us, s, e).states
    ensures var p, w, s' := s.states[t].peer, Winner(us, s, e), Dispatch(us, s, e);
            s'.events == s.events +
              (if w.Some? then WinnersNews(p, w.value.1) else if NothingLeft(s', p) then [ConnectFailure(p)] else [])
  {
    if !Concerns(s, e, t) {
      BystanderStays(us, s, e, t);
      assert false;
    } else if e.AttemptTimeout? {
      FailureRule(s, t);
    } else {
      var c := ChildOf(s, e, t);
      assert Kin(s.states, c);
      HandshakeStep(us, s, e);
      if Winner(us, s, e).Some? {
        WinnerReports(s, c, Winner(us, s, e).value.1);
      } else {
        FailReports(s, c);
      }
    }
  }

  /** The sub-state a step is about. */
  ghost function ChildOf(s: NodeState, e: Step, t: Token): (c: Token)
    requires Inv(s) && Enabled(s, e) && IsAttempt(s, t) && Concerns(s, e, t) && !e.AttemptTimeout?
    ensures c in s.states && ParentOf(s.states[c]) == Some(t) && IsHandshake(s, c)
    ensures OfHandshake(e) && c == e.c
  {
    assert forall k :: k in KidsOf(s.states, t) ==> Kin(s.states, k);
    e.c
  }

  // ----- Every failure that is ever reported -----

  /** `s'` adds events to those of `s`, and no failure to connect to `p` among them. */
  ghost predicate Quiet(s: NodeState, s': NodeState, p: Uid) {
    && s.events <= s'.events
    && forall i :: |s.events| <= i < |s'.events| ==> s'.events[i] != ConnectFailure(p)
  }

  /** The events a step added. */
  function Added(s: NodeState, s': NodeState): seq<Event>
    requires s.events <= s'.events
  {
    s'.events[|s.events|..]
  }

  lemma ActiveQuiet(s: NodeState, c: Token, r: Reads, broken: bool, p: Uid)
    requires c in s.states && s.states[c].Active?
    ensures Quiet(s, EndActive(s, c), p) && Quiet(s, ReadActive(s, c, r), p) && Quiet(s, SendActive(s, c, broken), p)
  {
  }

  lemma StartActiveQuiet(s: NodeState, c: Token, q: Uid, role: Role, up: Event, r: Reads, p: Uid)
    requires up != ConnectFailure(p)
    ensures Quiet(s, StartActive(s, c, q, role, up, true, r), p)
  {
  }

  lemma {:induction false} EndAllQuiet(s: NodeState, cs: seq<Token>, p: Uid)
    requires AllActive(s, cs)
    ensures Quiet(s, EndAll(s, cs), p)
    decreases |cs|
  {
    if cs != [] {
      EndAllQuiet(EndActive(s, cs[0]), cs[1..], p);
    }
  }

  lemma WriteQuiet(s: NodeState, t: Token, w: Written, p: Uid)
    requires IsIncoming(s, t) && HeartbeatSet(w)
    ensures Quiet(s, WriteIncoming(s, t, w), p)
  {
    match s.states[t].next {
      case ToActive(u, role) =>
        if w.Finished? { StartActiveQuiet(s.Cancel(t, 0), t, u, role, BootstrapAccept(u), w.first, p); }
      case _ =>
    }
  }

  lemma {:induction false} LaunchChecksEvents(s: NodeState, t: Token, u: Uid, oks: seq<bool>)
    requires IsIncoming(s, t) && t < s.counter
    ensures LaunchChecks(s, t, u, oks).events == s.events
  {
    if oks != [] { LaunchChecksEvents(s, t, u, oks[..|oks| - 1]); }
  }

  lemma OnRequestQuiet(s: NodeState, t: Token, v: Verdict, oks: seq<bool>, w: Written, p: Uid)
    requires IsIncoming(s, t) && t < s.counter && HeartbeatSet(w)
    ensures Quiet(s, OnRequest(s, t, v, oks, w), p)
  {
    match v {
      case Reject =>
      case Answer => WriteQuiet(Settle(s, t, NoNext), t, w, p);
      case Grant(u, role) => WriteQuiet(Settle(s, t, ToActive(u, role)), t, w, p);
      case Introduce(u) => WriteQuiet(Settle(s, t, ToCandidate(u)), t, w, p);
      case CheckFirst(u) =>
        var s0 := s.Put(t, s.states[t].(asked := true));
        LaunchChecksEvents(s0, t, u, oks);
        WriteQuiet(Settle(LaunchChecks(s0, t, u, oks), t, NoNext), t, w, p);
    }
  }

  lemma CheckDoneQuiet(s: NodeState, k: Token, reached: bool, w: Written, p: Uid)
    requires Owns(s.states) && k in s.states && s.states[k].Checking? && HeartbeatSet(w)
    ensures Quiet(s, CheckDone(s, k, reached, w), p)
  {
    assert Kin(s.states, k);
    var Checking(u, t) := s.states[k];
    var s1 := s.Cancel(k, 0).Remove(k);
    var s2 := s1.Put(t, s1.states[t].(checks := s1.states[t].checks - {k}));
    if reached {
      WriteQuiet(Settle(EndChecks(s2, t), t, ToActive(u, AsNode)), t, w, p);
    } else if s2.states[t].checks == {} {
      WriteQuiet(Settle(s2, t, NoNext), t, w, p);
    }
  }

  lemma {:induction false} LaunchTriesEvents(s: NodeState, oks: seq<bool>)
    requires IsBootstrapping(s) && BOOTSTRAP < s.counter
    ensures LaunchTries(s, oks).events == s.events
  {
    if oks != [] { LaunchTriesEvents(s, oks[..|oks| - 1]); }
  }

  lemma BeginQuiet(s: NodeState, oks: seq<bool>, p: Uid)
    requires IsBootstrapping(s) && BOOTSTRAP < s.counter
    ensures Quiet(s, BeginBootstrap(s, oks), p)
  {
    LaunchTriesEvents(s, oks);
  }

  lemma EndQuiet(s: NodeState, e: Event, p: Uid)
    requires IsBootstrapping(s) && !e.ConnectFailure?
    ensures Quiet(s, EndBootstrap(s).Say(e), p)
  {
  }

  lemma NotStartedQuiet(s: NodeState, timerLeft: bool, p: Uid)
    ensures Quiet(s, NotStarted(s, timerLeft), p)
  {
  }

  lemma BootstrapQuiet(us: Uid, s: NodeState, e: Step, p: Uid)
    requires TokensOk(s) && Enabled(s, e) && OfBootstrap(e)
    ensures Quiet(s, Dispatch(us, s, e), p)
  {
    match e {
      case Bootstrap(discover, oks) =>
        if !discover {
          BeginQuiet(s.Arm(BOOTSTRAP, 0).Put(BOOTSTRAP, Bootstrapping({}, false)).Say(BootstrapStarted), oks, p);
        }
      case DiscoveryTimeout(oks) =>
        BeginQuiet(s.Cancel(BOOTSTRAP, DISCOVERY).Put(BOOTSTRAP, s.states[BOOTSTRAP].(discovering := false)), oks, p);
      case BootstrapTimeout => EndQuiet(s, BootstrapFailed, p);
      case StopBootstrap => EndQuiet(s, BootstrapStopped, p);
      case TryEnds(k, res, r) => TryDoneQuiet(s, k, res, r, p);
      case BootstrapNotStarted(timerLeft) => NotStartedQuiet(s, timerLeft, p);
      case StaleTimeout => if IsBootstrapping(s) { EndQuiet(s.(stale := s.stale - 1), BootstrapFailed, p); }
    }
  }

  lemma TryDoneQuiet(s: NodeState, k: Token, res: TryResult, r: Reads, p: Uid)
    requires k in s.states && s.states[k].TryPeer?
    ensures Quiet(s, TryDone(s, k, res, true, r), p)
  {
    if IsBootstrapping(s.Remove(k)) && res.Granted? {
      var b := s.states[BOOTSTRAP];
      var s3 := EndBootstrap(s.Remove(k).Put(BOOTSTRAP, b.(tries := b.tries - {k})));
      StartActiveQuiet(s3, k, res.uid, AsNode, BootstrapConnect(res.uid), r, p);
    }
  }

  lemma ExchangeQuiet(us: Uid, s: NodeState, e: Step, p: Uid)
    requires Inv(s) && Enabled(s, e) && OfExchange(e)
    ensures Quiet(s, Dispatch(us, s, e), p)
  {
    match e {
      case Request(t, u, ask, env, oks, w) => OnRequestQuiet(s, t, VerdictFor(us, u, ask, env), oks, w, p);
      case IncomingWritable(t, w) => WriteQuiet(s, t, w, p);
      case IncomingEnds(_) =>
      case CheckEnds(k, reached, w) => CheckDoneQuiet(s, k, reached, w, p);
    }
  }

  lemma OtherQuiet(us: Uid, s: NodeState, e: Step, p: Uid)
    requires Inv(s) && Enabled(s, e) && !OfAttempt(e) && e != ConnectNowhere(p)
    ensures Quiet(s, Dispatch(us, s, e), p)
  {
    if OfExchange(e) {
      ExchangeQuiet(us, s, e, p);
    } else if OfBootstrap(e) {
      BootstrapQuiet(us, s, e, p);
    } else {
      match e {
        case ActiveReads(c, r) => ActiveQuiet(s, c, r, false, p);
        case ActiveSends(c, broken) => ActiveQuiet(s, c, Reads(0, false), broken, p);
        case ActiveEnds(c) => ActiveQuiet(s, c, Reads(0, false), false, p);
        case Purge(cs) => EndAllQuiet(s, cs, p);
        case _ =>
      }
    }
  }

  /** An attempt to connect to `p` leaves the table at this step, and none of its candidates won. */
  ghost predicate GivesUp(us: Uid, s: NodeState, e: Step, s': NodeState, t: Token, p: Uid) {
    IsAttempt(s, t) && s.states[t].peer == p && t !in s'.states && Winner(us, s, e).None?
  }

  ghost predicate SomeGivesUp(us: Uid, s: NodeState, e: Step, s': NodeState, p: Uid) {
    exists t :: GivesUp(us, s, e, s', t, p)
  }

  predicate FailsAtOnce(s: NodeState, e: Step, p: Uid) {
    || e == ConnectNowhere(p)
    || (e.Connect? && e.p == p && p !in s.cm && e.oks != [] && !e.oks[0])
  }

  lemma AddedBy(s: NodeState, s': NodeState, more: seq<Event>)
    requires s'.events == s.events + more
    ensures Added(s, s') == more
  {
  }

  lemma QuietAdded(s: NodeState, s': NodeState, p: Uid)
    requires Quiet(s, s', p)
    ensures ConnectFailure(p) !in Added(s, s')
  {
  }

  lemma ConnectAdds(us: Uid, s: NodeState, e: Step, p: Uid)
    requires Inv(s) && Enabled(s, e) && e.Connect?
    ensures s.events <= Dispatch(us, s, e).events
    ensures ConnectFailure(p) in Added(s, Dispatch(us, s, e)) <==> FailsAtOnce(s, e, p)
  {
    StartReports(s, e.p, e.oks);
    AddedBy(s, Dispatch(us, s, e), if e.p in s.cm then [] else Failures(e.p, Leading(e.oks)));
  }

  lemma TimeoutAdds(us: Uid, s: NodeState, e: Step, p: Uid)
    requires Inv(s) && Enabled(s, e) && e.AttemptTimeout?
    ensures s.events <= Dispatch(us, s, e).events
    ensures ConnectFailure(p) in Added(s, Dispatch(us, s, e)) ==>
              GivesUp(us, s, e, Dispatch(us, s, e), e.t, p) && NothingLeft(Dispatch(us, s, e), p)
  {
    EndStep(us, s, e, e.t);
    var q, s' := s.states[e.t].peer, Dispatch(us, s, e);
    AddedBy(s, s', if NothingLeft(s', q) then [ConnectFailure(q)] else []);
  }

  lemma FailAdds(s: NodeState, c: Token, p: Uid)
    requires Inv(s) && IsHandshake(s, c)
    ensures var s' := FailHandshake(s, c);
            && s.events <= s'.events
            && (ConnectFailure(p) in Added(s, s') ==>
                  && s.states[c].peer == p && ParentOf(s.states[c]) == Some(ParentOr(s, c))
                  && ParentOr(s, c) !in s'.states && NothingLeft(s', p))
  {
    FailReports(s, c);
    var s', q := FailHandshake(s, c), s.states[c].peer;
    AddedBy(s, s', if s'.events == s.events then [] else [ConnectFailure(q)]);
  }

  lemma WinAdds(s: NodeState, c: Token, r: Reads, p: Uid)
    requires Inv(s) && IsHandshake(s, c) && s.states[c].Candidate?
    ensures s.events <= WinCandidate(s, c, true, r).events
            && ConnectFailure(p) !in Added(s, WinCandidate(s, c, true, r))
  {
    WinnerReports(s, c, r);
    AddedBy(s, WinCandidate(s, c, true, r), WinnersNews(s.states[c].peer, r));
    NoFailureInNews(s.states[c].peer, r, p);
  }

  lemma NoFailureInNews(q: Uid, r: Reads, p: Uid)
    ensures ConnectFailure(p) !in WinnersNews(q, r)
  {
  }

  lemma HandshakeAdds(us: Uid, s: NodeState, e: Step, p: Uid)
    requires Inv(s) && Enabled(s, e) && OfHandshake(e)
    ensures s.events <= Dispatch(us, s, e).events
    ensures ConnectFailure(p) in Added(s, Dispatch(us, s, e)) ==>
              GivesUp(us, s, e, Dispatch(us, s, e), ParentOr(s, e.c), p) && NothingLeft(Dispatch(us, s, e), p)
  {
    assert Kin(s.states, e.c);
    HandshakeStep(us, s, e);
    if Winner(us, s, e).Some? {
      WinAdds(s, e.c, Winner(us, s, e).value.1, p);
    } else {
      FailAdds(s, e.c, p);
    }
  }

  /** If an attempt gives up at a step and nothing with the peer is left, the step reports failure. */
  lemma GivingUpAdds(us: Uid, s: NodeState, e: Step, t: Token, p: Uid)
    requires Inv(s) && Enabled(s, e) && GivesUp(us, s, e, Dispatch(us, s, e), t, p)
             && NothingLeft(Dispatch(us, s, e), p)
    ensures s.events <= Dispatch(us, s, e).events && ConnectFailure(p) in Added(s, Dispatch(us, s, e))
  {
    EndStep(us, s, e, t);
    AddedBy(s, Dispatch(us, s, e), [ConnectFailure(p)]);
  }

  /** The failure rule over runs. A step reports a failure to connect to `p` if and only if it is asked
      to connect to `p` with no address; or it starts an attempt whose first socket cannot be registered
      while the map does not know `p`; or an attempt to connect to `p` leaves the table without having
      won and nothing with `p` is left. */
  lemma FailureReported(us: Uid, ss: seq<NodeState>, es: seq<Step>, n: nat, p: Uid)
    requires IsRun(us, ss, es) && n < |es|
    ensures ss[n].events <= ss[n + 1].events
    ensures ConnectFailure(p) in Added(ss[n], ss[n + 1]) <==>
            FailsAtOnce(ss[n], es[n], p)
            || (SomeGivesUp(us, ss[n], es[n], ss[n + 1], p) && NothingLeft(ss[n + 1], p))
  {
    RunKeeps(us, ss, es, n);
    var s, e, s' := ss[n], es[n], ss[n + 1];
    if e.Connect? {
      ConnectAdds(us, s, e, p);
    } else if e.AttemptTimeout? {
      TimeoutAdds(us, s, e, p);
    } else if OfHandshake(e) {
      HandshakeAdds(us, s, e, p);
    } else if e == ConnectNowhere(p) {
      AddedBy(s, s', [ConnectFailure(p)]);
    } else {
      OtherQuiet(us, s, e, p);
      QuietAdded(s, s', p);
    }
    if SomeGivesUp(us, s, e, s', p) && NothingLeft(s', p) {
      var t :| GivesUp(us, s, e, s', t, p);
      GivingUpAdds(us, s, e, t, p);
    }
  }

  // ----- A failure before a success -----

  ghost predicate Goes(us: Uid, s: NodeState, e: Step, s': NodeState) {
    TokensOk(s) && Enabled(s, e) && Dispatch(us, s, e) == s'
  }

  /** The states of the run below: started, answered, and won. */
  const AfterStart := NodeState(
    9, map[6 := Connecting(1, {8}, false), 8 := OutExchange(1, 6)], map[1 := ConnectionId(None, 1)], {}, 0,
    [ConnectFailure(1)])
  const AfterReply := AfterStart.(states := map[6 := Connecting(1, {8}, false), 8 := Candidate(1, Some(6))])
  const AfterWin := NodeState(
    9, map[8 := Active(1, AsNode)], map[1 := ConnectionId(Some(8), 0)], {(8, RECV), (8, SEND)}, 0,
    [ConnectFailure(1), ConnectSuccess(1)])

  lemma FirstSocketFails()
    ensures Goes(5, Idle, Connect(1, [false, true]), AfterStart)
  {
    var a := Idle.Skip().Put(6, Connecting(1, {}, true)).Arm(6, 0);
    var b := NodeState(8, map[6 := Connecting(1, {}, false)], map[], {}, 0, [ConnectFailure(1)]);
    assert [false, true][..1] == [false] && [false][..0] == [];
    assert LaunchExchanges(a, 6, []) == a;
    assert a.timers - {(6, 0)} == {} && a.states[6 := Connecting(1, {}, false)] == b.states;
    assert LaunchExchange(a, 6, false) == b;
    assert LaunchExchanges(a, 6, [false]) == b;
    assert {} + {8} == {8};
    assert LaunchExchange(b, 6, true) == AfterStart;
  }

  lemma SecondIsAnswered()
    ensures Goes(5, AfterStart, ExchangeReply(8, true), AfterReply)
  {
    assert AfterStart.states[8 := Candidate(1, Some(6))] == AfterReply.states;
  }

  lemma FirstEnds()
    ensures var s := AfterReply;
            EndAttempt(Disown(s.Put(8, Candidate(1, None)), 8, 6), 6) == s.(states := map[8 := Candidate(1, None)])
  {
    var a := Disown(AfterReply.Put(8, Candidate(1, None)), 8, 6);
    assert {8} - {8} == {};
    assert a.states == map[6 := Connecting(1, {}, false), 8 := Candidate(1, None)];
    assert a.states - {} == a.states;
  }

  lemma SecondWins()
    ensures Goes(5, AfterReply, CandidateWritable(8, Sent(Reads(0, false)), NothingYet), AfterWin)
  {
    var b := AfterReply.(states := map[8 := Candidate(1, None)]);
    FirstEnds();
    assert AfterWin.events == b.events + [ConnectSuccess(1)] + News(1, 0);
    assert {} + {(8, RECV)} + {(8, SEND)} == AfterWin.timers;
    assert b.states[8 := Active(1, AsNode)] == AfterWin.states;
  }

  /** So an attempt can report failure and then, from the same attempt, success: its first socket cannot
      be registered and its second one wins. */
  lemma FailureThenSuccess() returns (ss: seq<NodeState>, es: seq<Step>)
    ensures IsRun(5, ss, es) && |es| == 3 && es[0] == Connect(1, [false, true])
    ensures forall i :: 1 <= i < 3 ==> IsAttempt(ss[i], ss[0].counter)
    ensures ss[3].events == [ConnectFailure(1), ConnectSuccess(1)]
  {
    FirstSocketFails();
    SecondIsAnswered();
    SecondWins();
    ss := [Idle, AfterStart, AfterReply, AfterWin];
    es := [Connect(1, [false, true]), ExchangeReply(8, true),
           CandidateWritable(8, Sent(Reads(0, false)), NothingYet)];
    ThreeSteps(5, ss, es);
  }

  lemma ThreeSteps(us: Uid, ss: seq<NodeState>, es: seq<Step>)
    requires |ss| == 4 && |es| == 3 && ss[0] == Idle
    requires Goes(us, ss[0], es[0], ss[1]) && Goes(us, ss[1], es[1], ss[2]) && Goes(us, ss[2], es[2], ss[3])
    ensures IsRun(us, ss, es)
  {
  }
}
