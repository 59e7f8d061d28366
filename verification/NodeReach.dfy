/** The incoming exchanges of a node's runs are runs of `Reachability`, step for step. */
module NodeReach {
  import opened ConnMap
  import opened Node
  import opened NodeInv
  import opened NodeRuns
  import opened Bystanders

  /** The exchange at `t` is where the model of a request says it is. */
  predicate Follows(s: NodeState, t: Token, x: R.Exchange) {
    && IsIncoming(s, t)
    && s.states[t].asked == x.asked
    && s.states[t].checks == x.checks
    && (s.states[t].replying <==> x.replies != [])
    && x.fate.Open?
  }

  /** A reply was handed to the socket, or the exchange ended with none. */
  predicate Over(x: R.Exchange) {
    x.replies != [] || !x.fate.Open?
  }

  predicate FollowsOrOver(s: NodeState, t: Token, x: R.Exchange) {
    if IsIncoming(s, t) then Follows(s, t, x) else Over(x)
  }

  // ----- One step -----

  /** The checks that launching on `oks` starts, as the listeners of a request. */
  function ListenersOf(oks: seq<bool>, first: Token): seq<R.Listener> {
    seq(|oks|, i requires 0 <= i < |oks| => R.Listener(true, if oks[i] then R.StartedAs(first + i) else R.NotStarted))
  }

  function RequestOf(ask: Ask, oks: seq<bool>, first: Token): R.Request {
    match ask
    case AskBootstrap(reachable) =>
      R.Bootstrap(if reachable then R.Required(ListenersOf(oks, first)) else R.NotRequired)
    case AskIntroduction => R.Introduce
    case AskEcho => R.Echo
    case AskOther => R.Unexpected
  }

  lemma {:induction false} LaunchedChecks(s: NodeState, t: Token, u: Uid, oks: seq<bool>)
    requires IsIncoming(s, t) && t < s.counter
    ensures var s' := LaunchChecks(s, t, u, oks);
            && s'.counter == s.counter + |oks|
            && s'.states[t].checks == s.states[t].checks + R.ChecksOn(ListenersOf(oks, s.counter))
            && s'.cm == s.cm
  {
    var ls := ListenersOf(oks, s.counter);
    if oks == [] {
      assert R.ChecksOn(ls) == {};
    } else {
      var n := |oks| - 1;
      LaunchedChecks(s, t, u, oks[..n]);
      assert ListenersOf(oks[..n], s.counter) == ls[..n];
      R.MoreChecks(ls, n);
      assert ls[..n + 1] == ls;
    }
  }

  /** A reply that is not a grant is written whatever the map says. */
  lemma ReplyFollows(s: NodeState, t: Token, next: NextState, w: Written, x: R.Exchange, r: R.Reply)
    requires Follows(s, t, x) && x.asked && x.replies == [] && !next.ToActive?
    ensures FollowsOrOver(ReplyIncoming(s, t, next, w), t, R.Answer(x, r))
  {
  }

  /** A grant is written if the peer has no connection in service. If it has, the exchange is gone, and
      what the socket would have done with a reply makes no difference. */
  lemma GrantFollows(s: NodeState, t: Token, u: Uid, role: Role, w: Written, x: R.Exchange, r: R.Reply)
    requires Follows(s, t, x) && x.asked && x.replies == []
    ensures FollowsOrOver(ReplyIncoming(s, t, ToActive(u, role), w), t, R.Grant(x, r, InService(s.cm, u)))
    ensures InService(s.cm, u) ==>
              ReplyIncoming(s, t, ToActive(u, role), w) == ReplyIncoming(s, t, ToActive(u, role), Unfinished)
  {
  }

  lemma CheckFirstFollows(s: NodeState, t: Token, u: Uid, oks: seq<bool>, w: Written)
    requires IsIncoming(s, t) && t < s.counter && Follows(s, t, R.Fresh)
    ensures var ks := R.ChecksOn(ListenersOf(oks, s.counter));
            var x := R.Fresh.(asked := true, checks := ks, started := ks);
            var y := if ks == {} then R.Answer(x, R.FailedReachability) else x;
            FollowsOrOver(CheckReachability(s, t, u, oks, w), t, y)
  {
    var s0 := s.Put(t, s.states[t].(asked := true));
    var ks := R.ChecksOn(ListenersOf(oks, s.counter));
    var x := R.Fresh.(asked := true, checks := ks, started := ks);
    LaunchedChecks(s0, t, u, oks);
    var s1 := LaunchChecks(s0, t, u, oks);
    assert {} + ks == ks;
    if ks == {} { ReplyFollows(s1, t, NoNext, w, x, R.FailedReachability); }
  }

  lemma RequestFollows(us: Uid, s: NodeState, t: Token, u: Uid, ask: Ask, env: R.Setting, oks: seq<bool>, w: Written)
    requires IsIncoming(s, t) && t < s.counter && Follows(s, t, R.Fresh)
    ensures FollowsOrOver(OnRequest(s, t, VerdictFor(us, u, ask, env), oks, w), t,
                          R.Requested(R.Fresh, env, RequestOf(ask, oks, s.counter), u == us, InService(s.cm, u)))
  {
    var v := VerdictFor(us, u, ask, env);
    if v.CheckFirst? {
      CheckFirstFollows(s, t, u, oks, w);
      assert {} + R.ChecksOn(ListenersOf(oks, s.counter)) == R.ChecksOn(ListenersOf(oks, s.counter));
    } else if !v.Reject? {
      AtOnceFollows(us, s, t, u, ask, env, oks, w);
    }
  }

  lemma AtOnceFollows(us: Uid, s: NodeState, t: Token, u: Uid, ask: Ask, env: R.Setting, oks: seq<bool>, w: Written)
    requires IsIncoming(s, t) && t < s.counter && Follows(s, t, R.Fresh)
    requires var v := VerdictFor(us, u, ask, env); v.Answer? || v.Grant? || v.Introduce?
    ensures FollowsOrOver(OnRequest(s, t, VerdictFor(us, u, ask, env), oks, w), t,
                          R.Requested(R.Fresh, env, RequestOf(ask, oks, s.counter), u == us, InService(s.cm, u)))
  {
    var y := R.Fresh.(asked := true);
    var s0 := s.Put(t, s.states[t].(asked := true));
    var x := R.Requested(R.Fresh, env, RequestOf(ask, oks, s.counter), u == us, InService(s.cm, u));
    assert forall next :: Settle(s0, t, next) == Settle(s, t, next);
    match VerdictFor(us, u, ask, env) {
      case Answer => ReplyFollows(s0, t, NoNext, w, y, x.replies[0]);
      case Grant(_, role) =>
        GrantFollows(s0, t, u, role, w, y, if role.AsNode? then R.GrantNode else R.GrantClient);
      case Introduce(_) => ReplyFollows(s0, t, ToCandidate(u), w, y, R.Introduction);
    }
  }

  lemma CheckFollows(s: NodeState, k: Token, reached: bool, w: Written, x: R.Exchange)
    requires Inv(s) && k in s.states && s.states[k].Checking? && Follows(s, s.states[k].exchange, x)
    ensures k in x.checks
    ensures FollowsOrOver(CheckDone(s, k, reached, w), s.states[k].exchange,
                          R.CheckEnded(x, k, reached, InService(s.cm, s.states[k].peer)))
  {
    var Checking(u, t) := s.states[k];
    assert k in KidsOf(s.states, t) && Shape(s.states[t]);
    var s2 := s.Cancel(k, 0).Remove(k).Put(t, s.states[t].(checks := s.states[t].checks - {k}));
    var y := x.(checks := x.checks - {k});
    if reached {
      GrantFollows(EndChecks(s2, t), t, u, AsNode, w, y.(checks := {}, passed := y.passed + {k}), R.GrantNode);
    } else if s2.states[t].checks == {} {
      ReplyFollows(s2, t, NoNext, w, y.(failed := y.failed + {k}), R.FailedReachability);
    }
  }

  // ----- Whole runs -----

  /** What a node's step is to the exchange at `t`: one step of it, or none. */
  ghost function StepsFor(us: Uid, s: NodeState, e: Step, t: Token): seq<R.Step> {
    if !IsIncoming(s, t) then []
    else match e
         case Request(t', u, ask, env, oks, _) =>
           if t' == t then [R.Request(env, RequestOf(ask, oks, s.counter), u == us, InService(s.cm, u))] else []
         case IncomingEnds(t') => if t' == t && !s.states[t].replying then [R.Ends] else []
         case CheckEnds(k, reached, _) =>
           if k in s.states && s.states[k].Checking? && s.states[k].exchange == t
           then [R.CheckEnds(k, reached, InService(s.cm, s.states[k].peer))] else []
         case _ => []
  }

  ghost function Applied(x: R.Exchange, rs: seq<R.Step>): R.Exchange {
    if rs == [] then x else R.Next(x, rs[0])
  }

  lemma OwnStepFollows(us: Uid, s: NodeState, e: Step, t: Token, x: R.Exchange)
    requires Inv(s) && Enabled(s, e) && Follows(s, t, x) && R.Inv(x) && OfExchange(e) && About(s, e) == t
    ensures var rs := StepsFor(us, s, e, t);
            && (rs != [] ==> R.Enabled(x, rs[0]))
            && FollowsOrOver(Dispatch(us, s, e), t, Applied(x, rs))
  {
    match e {
      case Request(_, u, ask, env, oks, w) => RequestFollows(us, s, t, u, ask, env, oks, w);
      case CheckEnds(k, reached, w) => CheckFollows(s, k, reached, w, x);
      case IncomingWritable(_, w) => ReplyingStays(s, t, w, x);
      case IncomingEnds(_) =>
    }
  }

  lemma ReplyingStays(s: NodeState, t: Token, w: Written, x: R.Exchange)
    requires Follows(s, t, x) && s.states[t].replying
    ensures FollowsOrOver(WriteIncoming(s, t, w), t, x)
  {
  }

  lemma StepFollows(us: Uid, s: NodeState, e: Step, t: Token, x: R.Exchange)
    requires Inv(s) && Enabled(s, e) && Follows(s, t, x) && R.Inv(x)
    ensures var rs := StepsFor(us, s, e, t);
            && (rs != [] ==> R.Enabled(x, rs[0]))
            && FollowsOrOver(Dispatch(us, s, e), t, Applied(x, rs))
  {
    if Concerns(s, e, t) {
      NotAChild(s, e, t);
      OwnStepFollows(us, s, e, t, x);
    } else {
      BystanderStays(us, s, e, t);
      NoStepFor(us, s, e, t);
    }
  }

  lemma NoStepFor(us: Uid, s: NodeState, e: Step, t: Token)
    requires Enabled(s, e) && IsIncoming(s, t) && !Concerns(s, e, t)
    ensures StepsFor(us, s, e, t) == []
  {
  }

  /** The sub-states of an incoming exchange are checks. */
  lemma NotAChild(s: NodeState, e: Step, t: Token)
    requires Inv(s) && Enabled(s, e) && IsIncoming(s, t) && Concerns(s, e, t)
    ensures OfExchange(e) && About(s, e) == t
  {
    forall c | c in KidsOf(s.states, t) ensures s.states[c].Checking? { assert Kin(s.states, c); }
  }

  /** The exchange at `t`, followed through the first `n` steps of a run. */
  ghost function Record(us: Uid, ss: seq<NodeState>, es: seq<Step>, t: Token, n: nat): R.Exchange
    requires |ss| == |es| + 1 && n <= |es|
  {
    if n == 0 then R.Fresh else Applied(Record(us, ss, es, t, n - 1), StepsFor(us, ss[n - 1], es[n - 1], t))
  }

  /** Some run of an exchange ends in `x`. */
  ghost predicate Reached(x: R.Exchange) {
    exists xs, rs :: R.IsRun(xs, rs) && xs[|rs|] == x
  }

  lemma ReachedNext(x: R.Exchange, r: R.Step)
    requires Reached(x) && R.Enabled(x, r)
    ensures Reached(R.Next(x, r))
  {
    var xs, rs :| R.IsRun(xs, rs) && xs[|rs|] == x;
    var xs', rs' := xs + [R.Next(x, r)], rs + [r];
    assert R.IsRun(xs', rs') && xs'[|rs'|] == R.Next(x, r);
  }

  lemma ReachedInv(x: R.Exchange)
    requires Reached(x)
    ensures R.Inv(x)
  {
    var xs, rs :| R.IsRun(xs, rs) && xs[|rs|] == x;
    R.RunKeeps(xs, rs, |rs|);
  }

  lemma FreshReached()
    ensures Reached(R.Fresh)
  {
    var xs, rs: seq<R.Step> := [R.Fresh], [];
    assert R.IsRun(xs, rs) && xs[|rs|] == R.Fresh;
  }

  /** In every run of a node, for every token: there is a run of an exchange that the token's exchange
      is at, as long as it is in the table; when it has left, that run has replied or is over. A token
      not handed out yet has no history. */
  lemma {:induction false} Followed(us: Uid, ss: seq<NodeState>, es: seq<Step>, t: Token, n: nat)
    requires IsRun(us, ss, es) && n <= |es|
    ensures Reached(Record(us, ss, es, t, n))
    ensures IsIncoming(ss[n], t) ==> Follows(ss[n], t, Record(us, ss, es, t, n))
    ensures !IsIncoming(ss[n], t) ==> Record(us, ss, es, t, n) == R.Fresh || Over(Record(us, ss, es, t, n))
    ensures t >= ss[n].counter ==> Record(us, ss, es, t, n) == R.Fresh
    decreases n
  {
    if n == 0 {
      FreshReached();
    } else {
      var s, e, x := ss[n - 1], es[n - 1], Record(us, ss, es, t, n - 1);
      Followed(us, ss, es, t, n - 1);
      RunKeeps(us, ss, es, n - 1);
      CounterGrows(us, s, e);
      if IsIncoming(s, t) {
        ReachedInv(x);
        StepFollows(us, s, e, t, x);
        var rs := StepsFor(us, s, e, t);
        if rs != [] { ReachedNext(x, rs[0]); }
      } else {
        NewIncoming(us, s, e, t);
      }
    }
  }

  /** The fan-out rule on a node's own runs: an exchange that is asked and not replying has a check live;
      one that is replying has none; and its history, which is a run of `Reachability`, has at most one
      reply, with a grant behind checks only after one succeeded and a denial only after all failed. */
  lemma FanOut(us: Uid, ss: seq<NodeState>, es: seq<Step>, t: Token, n: nat)
    requires IsRun(us, ss, es) && n <= |es|
    ensures var x := Record(us, ss, es, t, n);
            && |x.replies| <= 1
            && (IsIncoming(ss[n], t) && ss[n].states[t].asked ==>
                  && (ss[n].states[t].replying <==> |x.replies| == 1)
                  && (ss[n].states[t].replying <==> ss[n].states[t].checks == {}))
            && (x.started != {} ==>
                  && (x.passed != {} <==> x.replies == [R.GrantNode] || x.fate == R.Refused)
                  && (x.failed == x.started <==> x.replies == [R.FailedReachability]))
  {
    Followed(us, ss, es, t, n);
    ReachedInv(Record(us, ss, es, t, n));
  }
}
