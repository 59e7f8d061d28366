/** An incoming exchange: what its first message is answered, who is granted a bootstrap, and the checks
    that a node asking to join can be reached from outside. */
module Reachability {

  type Token = nat

  /** An address the peer says it listens on: whether it is a global one, and the token of the check
      started on it if one could be. */
  datatype Listener = Listener(global: bool, check: Check)
  datatype Check = NotStarted | StartedAs(token: Token)

  datatype Reach = NotRequired | Required(listeners: seq<Listener>)

  /** The message the exchange reads. */
  datatype Request = Bootstrap(reach: Reach) | Introduce | Echo | Unexpected

  datatype Reply =
    | GrantNode | GrantClient
    | InvalidNameHash | FailedReachability | NodeNotWhitelisted | ClientNotWhitelisted
    | Introduction | EchoAddr

  /** What the exchange finds at the time of the request. */
  datatype Setting = Setting(
    acceptBootstrap: bool, hashMatches: bool, nodeListed: bool, clientListed: bool, addrKnown: bool,
    requireReachability: bool)

  /** `Refused`: a grant was due, but the peer had a connection in service, so the exchange ended with
      nothing written. `Ended`: it ended unanswered for any other reason. */
  datatype Fate = Open | Refused | Ended

  /** `checks` are the live checks. The rest is history: the checks ever started, those that
      succeeded and those that failed, and the replies handed to the socket. */
  datatype Exchange = Exchange(
    asked: bool, fate: Fate, checks: set<Token>, replies: seq<Reply>,
    started: set<Token>, passed: set<Token>, failed: set<Token>)

  const Fresh := Exchange(false, Open, {}, [], {}, {}, {})

  predicate Starts(l: Listener) {
    l.global && l.check.StartedAs?
  }

  function ChecksOn(ls: seq<Listener>): set<Token> {
    set i | 0 <= i < |ls| && Starts(ls[i]) :: ls[i].check.token
  }

  function Answer(x: Exchange, r: Reply): Exchange {
    x.(replies := x.replies + [r])
  }

  /** A grant is not written to a peer that already has a connection in service. */
  function Grant(x: Exchange, r: Reply, inService: bool): Exchange {
    if inService then x.(fate := Refused, checks := {}) else Answer(x, r)
  }

  function End(x: Exchange): Exchange {
    x.(fate := Ended, checks := {})
  }

  function Bootstrapped(x: Exchange, env: Setting, reach: Reach, inService: bool): Exchange {
    if !env.hashMatches then Answer(x, InvalidNameHash)
    else match reach
         case NotRequired =>
           if env.clientListed then Grant(x, GrantClient, inService) else Answer(x, ClientNotWhitelisted)
         case Required(ls) =>
           if !env.nodeListed then Answer(x, NodeNotWhitelisted)
           else if !env.requireReachability then Grant(x, GrantNode, inService)
           else
             var ks := ChecksOn(ls);
             var y := x.(checks := x.checks + ks, started := x.started + ks);
             if y.checks == {} then Answer(y, FailedReachability) else y
  }

  /** `own` says that the request bears our own id. */
  function Requested(x: Exchange, env: Setting, req: Request, own: bool, inService: bool): Exchange {
    var y := x.(asked := true);
    match req
    case Bootstrap(reach) => if !env.acceptBootstrap || own then End(y) else Bootstrapped(y, env, reach, inService)
    case Introduce => if own || !env.hashMatches || !env.nodeListed then End(y) else Answer(y, Introduction)
    case Echo => if env.addrKnown then Answer(y, EchoAddr) else End(y)
    case Unexpected => End(y)
  }

  function CheckEnded(x: Exchange, k: Token, reached: bool, inService: bool): Exchange {
    var y := x.(checks := x.checks - {k});
    if reached then Grant(y.(checks := {}, passed := y.passed + {k}), GrantNode, inService)
    else
      var z := y.(failed := y.failed + {k});
      if z.checks == {} then Answer(z, FailedReachability) else z
  }

  class IncomingExchange {
    var asked: bool
    var fate: Fate
    var reachabilityChildren: set<Token>
    var replies: seq<Reply>
    ghost var started: set<Token>
    ghost var passed: set<Token>
    ghost var failed: set<Token>

    ghost function View(): Exchange
      reads this
    {
      Exchange(asked, fate, reachabilityChildren, replies, started, passed, failed)
    }

    constructor ()
      ensures View() == Fresh
    {
      asked, fate, reachabilityChildren, replies := false, Open, {}, [];
      started, passed, failed := {}, {}, {};
    }

    /** Ends the checks one by one. */
    method TerminateChildren()
      modifies this`reachabilityChildren
      ensures View() == old(View()).(checks := {})
    {
      while reachabilityChildren != {}
        invariant View() == old(View()).(checks := reachabilityChildren)
        decreases reachabilityChildren
      {
        var child :| child in reachabilityChildren;
        reachabilityChildren := reachabilityChildren - {child};
      }
    }

    method Terminate(why: Fate)
      modifies this`reachabilityChildren, this`fate
      ensures View() == old(View()).(checks := {}, fate := why)
    {
      TerminateChildren();
      fate := why;
    }

    method Write(r: Reply)
      modifies this`replies
      ensures View() == Answer(old(View()), r)
    {
      replies := replies + [r];
    }

    method SendBootstrapGrant(r: Reply, inService: bool)
      requires reachabilityChildren == {}
      modifies this
      ensures View() == Grant(old(View()), r, inService)
    {
      if inService {
        Terminate(Refused);
      } else {
        Write(r);
      }
    }

    method Read(env: Setting, req: Request, own: bool, inService: bool)
      requires reachabilityChildren == {}
      modifies this
      ensures View() == Requested(old(View()), env, req, own, inService)
    {
      asked := true;
      match req {
        case Bootstrap(reach) =>
          if !env.acceptBootstrap || own {
            Terminate(Ended);
          } else {
            HandleBootstrapReq(env, reach, inService);
          }
        case Introduce =>
          if own || !env.hashMatches || !env.nodeListed {
            Terminate(Ended);
          } else {
            Write(Introduction);
          }
        case Echo =>
          if env.addrKnown {
            Write(EchoAddr);
          } else {
            Terminate(Ended);
          }
        case Unexpected =>
          Terminate(Ended);
      }
    }

    method HandleBootstrapReq(env: Setting, reach: Reach, inService: bool)
      requires reachabilityChildren == {}
      modifies this
      ensures View() == Bootstrapped(old(View()), env, reach, inService)
    {
      if !env.hashMatches {
        Write(InvalidNameHash);
        return;
      }
      match reach {
        case Required(ls) =>
          if !env.nodeListed {
            Write(NodeNotWhitelisted);
            return;
          }
          if !env.requireReachability {
            SendBootstrapGrant(GrantNode, inService);
            return;
          }
          StartChecks(ls);
          if reachabilityChildren == {} {
            Write(FailedReachability);
          }
        case NotRequired =>
          if !env.clientListed {
            Write(ClientNotWhitelisted);
            return;
          }
          SendBootstrapGrant(GrantClient, inService);
      }
    }

    /** One check per global address, where one can be started. */
    method StartChecks(ls: seq<Listener>)
      modifies this`reachabilityChildren, this`started
      ensures var x, ks := old(View()), ChecksOn(ls);
              View() == x.(checks := x.checks + ks, started := x.started + ks)
    {
      ghost var y := View();
      for i := 0 to |ls|
        invariant View() == y.(checks := y.checks + ChecksOn(ls[..i]), started := y.started + ChecksOn(ls[..i]))
      {
        MoreChecks(ls, i);
        if ls[i].global && ls[i].check.StartedAs? {
          reachabilityChildren := reachabilityChildren + {ls[i].check.token};
          started := started + {ls[i].check.token};
        }
      }
      assert ls[..|ls|] == ls;
    }

    /** The callback of a check. The first success ends every other check. */
    method HandleCheckReachability(k: Token, reached: bool, inService: bool)
      modifies this
      ensures View() == CheckEnded(old(View()), k, reached, inService)
    {
      reachabilityChildren := reachabilityChildren - {k};
      if reached {
        passed := passed + {k};
        TerminateChildren();
        SendBootstrapGrant(GrantNode, inService);
        return;
      }
      failed := failed + {k};
      if reachabilityChildren == {} {
        Write(FailedReachability);
      }
    }
  }

  lemma MoreChecks(ls: seq<Listener>, i: nat)
    requires i < |ls|
    ensures ChecksOn(ls[..i + 1]) == ChecksOn(ls[..i]) + (if Starts(ls[i]) then {ls[i].check.token} else {})
  {
    var now, before := ls[..i + 1], ls[..i];
    assert forall j :: 0 <= j < i ==> now[j] == before[j];
    forall k | k in ChecksOn(before) ensures k in ChecksOn(now) {
      var j :| 0 <= j < |before| && Starts(before[j]) && before[j].check.token == k;
      assert Starts(now[j]) && now[j].check.token == k;
    }
    if Starts(ls[i]) {
      assert Starts(now[i]) && now[i].check.token in ChecksOn(now);
    }
  }

  // ----- Runs -----

  /** `Ends` is an error, a timeout or the end of the stream before anything is answered. */
  datatype Step =
    | Request(env: Setting, req: Request, own: bool, inService: bool)
    | CheckEnds(k: Token, reached: bool, inService: bool)
    | Ends

  /** One request per connection; only a live check calls back. */
  predicate Enabled(x: Exchange, e: Step) {
    match e
    case Request(_, _, _, _) => !x.asked && x.fate.Open?
    case CheckEnds(k, _, _) => k in x.checks
    case Ends => x.fate.Open? && x.replies == []
  }

  function Next(x: Exchange, e: Step): Exchange {
    match e
    case Request(env, req, own, inService) => Requested(x, env, req, own, inService)
    case CheckEnds(k, reached, inService) => CheckEnded(x, k, reached, inService)
    case Ends => End(x)
  }

  ghost predicate IsRun(xs: seq<Exchange>, es: seq<Step>) {
    && |xs| == |es| + 1
    && xs[0] == Fresh
    && forall i :: 0 <= i < |es| ==> Enabled(xs[i], es[i]) && xs[i + 1] == Next(xs[i], es[i])
  }

  /** Started checks are live, passed or failed until the exchange ends with some still live. */
  ghost predicate ChecksOk(x: Exchange) {
    && x.checks <= x.started && x.passed <= x.started && x.failed <= x.started
    && x.checks !! x.failed && x.passed !! x.failed
    && (x.passed == {} && x.fate != Ended ==> x.started == x.checks + x.failed)
    && (x.checks != {} ==> x.passed == {})
  }

  ghost predicate RepliesOk(x: Exchange) {
    && (!x.asked ==> x == Fresh || x == End(Fresh))
    && (x.fate != Open ==> x.replies == [] && x.checks == {})
    && (x.asked && x.fate == Open ==> |x.replies| == if x.checks == {} then 1 else 0)
    && (x.started != {} ==>
          && (x.passed != {} <==> x.replies == [GrantNode] || x.fate == Refused)
          && (x.failed == x.started <==> x.replies == [FailedReachability])
          && x.replies in {[], [GrantNode], [FailedReachability]})
  }

  ghost predicate Inv(x: Exchange) {
    ChecksOk(x) && RepliesOk(x)
  }

  lemma CheckStepKeeps(x: Exchange, k: Token, reached: bool, inService: bool)
    requires Inv(x) && k in x.checks
    ensures Inv(CheckEnded(x, k, reached, inService))
  {
    var y := CheckEnded(x, k, reached, inService);
    assert x.asked && x.fate == Open && x.replies == [] && x.passed == {};
    if reached {
      assert k in y.passed && k !in y.failed;
    } else {
      assert x.checks - {k} + (x.failed + {k}) == x.checks + x.failed;
      assert y.checks == {} <==> y.failed == y.started;
      assert y.replies != [] ==> y.replies[0] == FailedReachability;
    }
  }

  lemma StepKeeps(x: Exchange, e: Step)
    requires Inv(x) && Enabled(x, e)
    ensures Inv(Next(x, e))
  {
    match e {
      case Request(env, req, _, _) =>
        if req.Bootstrap? && req.reach.Required? {
          assert {} + ChecksOn(req.reach.listeners) == ChecksOn(req.reach.listeners);
        }
      case CheckEnds(k, reached, inService) => CheckStepKeeps(x, k, reached, inService);
      case Ends =>
    }
  }

  lemma {:induction false} RunKeeps(xs: seq<Exchange>, es: seq<Step>, n: nat)
    requires IsRun(xs, es) && n < |xs|
    ensures Inv(xs[n])
    decreases n
  {
    if n > 0 {
      RunKeeps(xs, es, n - 1);
      StepKeeps(xs[n - 1], es[n - 1]);
    }
  }

  /** In every run, for every request: at most one reply is written; once asked, an exchange has either
      replied, or has a check pending, or is over with nothing written. Where checks were started, one
      of them succeeded exactly if a node was granted or refused for being in service, and all of them
      failed exactly if it was denied. */
  lemma OneReplyEach(xs: seq<Exchange>, es: seq<Step>, n: nat)
    requires IsRun(xs, es) && n < |xs|
    ensures |xs[n].replies| <= 1
    ensures xs[n].asked ==> (xs[n].replies == [] <==> xs[n].checks != {} || xs[n].fate != Open)
    ensures !(xs[n].checks != {} && xs[n].fate != Open)
    ensures xs[n].started != {} ==>
              && (xs[n].passed != {} <==> xs[n].replies == [GrantNode] || xs[n].fate == Refused)
              && (xs[n].failed == xs[n].started <==> xs[n].replies == [FailedReachability])
              && xs[n].replies in {[], [GrantNode], [FailedReachability]}
  {
    RunKeeps(xs, es, n);
  }

  /** The step is one at which a node, or a client, is to be granted. */
  predicate NodeDue(e: Step) {
    match e
    case Request(env, Bootstrap(Required(_)), own, _) =>
      env.acceptBootstrap && !own && env.hashMatches && env.nodeListed && !env.requireReachability
    case CheckEnds(_, reached, _) => reached
    case _ => false
  }

  predicate ClientDue(e: Step) {
    match e
    case Request(env, Bootstrap(NotRequired), own, _) => env.acceptBootstrap && !own && env.hashMatches
        && env.clientListed
    case _ => false
  }

  /** A grant is written at a step if and only if one is due and the peer has no connection in service;
      if it has, the exchange ends with nothing written, and for no other reason is one refused. */
  lemma GrantRule(xs: seq<Exchange>, es: seq<Step>, n: nat)
    requires IsRun(xs, es) && n < |es|
    ensures var x, x', e := xs[n], xs[n + 1], es[n];
            && (x'.replies == [GrantNode] && x.replies == [] <==> NodeDue(e) && !e.inService)
            && (x'.replies == [GrantClient] && x.replies == [] <==> ClientDue(e) && !e.inService)
            && (x'.fate == Refused && x.fate == Open <==> (NodeDue(e) || ClientDue(e)) && e.inService)
  {
    RunKeeps(xs, es, n);
    var x, x', e := xs[n], xs[n + 1], es[n];
    assert x' == Next(x, e) && (e.Ends? || x.replies == []);
    assert x'.replies != [] ==> |x'.replies| == 1 && x'.replies == [x'.replies[0]];
  }

  /** The request is a bootstrap request that is considered at all. */
  predicate Considered(e: Step) {
    e.Request? && e.req.Bootstrap? && e.env.acceptBootstrap && !e.own
  }

  /** The reply that a step is to write. A wrong network comes before anything else is looked at; then the
      list for what the peer is; then, for a node, whether it must be reachable and is not. */
  predicate Due(x: Exchange, e: Step, r: Reply) {
    match r
    case GrantNode => NodeDue(e) && !e.inService
    case GrantClient => ClientDue(e) && !e.inService
    case InvalidNameHash => Considered(e) && !e.env.hashMatches
    case ClientNotWhitelisted =>
      Considered(e) && e.env.hashMatches && e.req.reach.NotRequired? && !e.env.clientListed
    case NodeNotWhitelisted => Considered(e) && e.env.hashMatches && e.req.reach.Required? && !e.env.nodeListed
    case FailedReachability =>
      || (&& Considered(e) && e.env.hashMatches && e.req.reach.Required? && e.env.nodeListed
          && e.env.requireReachability
          && forall i :: 0 <= i < |e.req.reach.listeners| ==> !Starts(e.req.reach.listeners[i]))
      || (e.CheckEnds? && !e.reached && x.checks == {e.k})
    case Introduction => e.Request? && e.req.Introduce? && !e.own && e.env.hashMatches && e.env.nodeListed
    case EchoAddr => e.Request? && e.req.Echo? && e.env.addrKnown
  }

  /** The step ends the exchange with nothing written, and not for the peer's being in service. */
  predicate EndDue(e: Step) {
    match e
    case Request(env, Bootstrap(_), own, _) => !env.acceptBootstrap || own
    case Request(env, Introduce, own, _) => own || !env.hashMatches || !env.nodeListed
    case Request(env, Echo, _, _) => !env.addrKnown
    case Request(_, Unexpected, _, _) => true
    case CheckEnds(_, _, _) => false
    case Ends => true
  }

  lemma NoCheckStarts(ls: seq<Listener>)
    ensures ChecksOn(ls) == {} <==> forall i :: 0 <= i < |ls| ==> !Starts(ls[i])
  {
    forall i | 0 <= i < |ls| && Starts(ls[i]) ensures ls[i].check.token in ChecksOn(ls) { }
  }

  /** `e` is the step from a state in which nothing has been written, as all are that a step is for. */
  ghost predicate Obeys(x: Exchange, e: Step, r: Reply) {
    var y := Next(x, e);
    && (|y.replies| == 1 && y.replies[0] == r <==> Due(x, e, r))
    && (y.fate == Ended <==> EndDue(e))
  }

  lemma BootstrapObeys(x: Exchange, e: Step, r: Reply)
    requires x.replies == [] && x.fate == Open && x.checks == {} && e.Request? && e.req.Bootstrap?
    ensures Obeys(x, e, r)
  {
    if e.req.reach.Required? {
      NoCheckStarts(e.req.reach.listeners);
      assert {} + ChecksOn(e.req.reach.listeners) == ChecksOn(e.req.reach.listeners);
    }
  }

  lemma CheckObeys(x: Exchange, e: Step, r: Reply)
    requires x.replies == [] && x.fate == Open && e.CheckEnds? && e.k in x.checks
    ensures Obeys(x, e, r)
  {
    assert x.checks - {e.k} == {} <==> x.checks == {e.k};
  }

  lemma StepObeys(x: Exchange, e: Step, r: Reply)
    requires Inv(x) && Enabled(x, e)
    ensures x.replies == [] && x.fate == Open && Obeys(x, e, r)
  {
    match e {
      case Request(_, Bootstrap(_), _, _) => BootstrapObeys(x, e, r);
      case Request(_, _, _, _) =>
      case CheckEnds(_, _, _) => CheckObeys(x, e, r);
      case Ends =>
    }
  }

  /** In every run each reply is written at a step if and only if its own condition holds, and the exchange
      ends unanswered under exactly the conditions left. */
  lemma ReplyRule(xs: seq<Exchange>, es: seq<Step>, n: nat, r: Reply)
    requires IsRun(xs, es) && n < |es|
    ensures xs[n + 1].replies == xs[n].replies + [r] <==> Due(xs[n], es[n], r)
    ensures xs[n].fate == Open && (xs[n + 1].fate == Ended <==> EndDue(es[n]))
  {
    RunKeeps(xs, es, n);
    StepObeys(xs[n], es[n], r);
    var y := xs[n + 1];
    assert y.replies == [r] <==> |y.replies| == 1 && y.replies[0] == r;
  }

  // ----- A further request -----

  /** What may still follow a state in which no more requests come. */
  ghost predicate Continues(x: Exchange, es: seq<Step>, z: Exchange)
    decreases |es|
  {
    if es == [] then x == z
    else !es[0].Request? && Enabled(x, es[0]) && Continues(Next(x, es[0]), es[1..], z)
  }

  /** However its checks end, no more than one reply is ever written. */
  ghost predicate AtMostOneReply(x: Exchange) {
    forall es, z :: Continues(x, es, z) ==> |z.replies| <= 1
  }

  /** The replies written, and one more if a check is live to bring it. */
  function Coming(x: Exchange): nat {
    |x.replies| + (if x.checks != {} then 1 else 0)
  }

  lemma {:induction false} NoMoreThanComing(x: Exchange, es: seq<Step>, z: Exchange)
    requires Continues(x, es, z)
    ensures |z.replies| <= Coming(x)
    decreases |es|
  {
    if es != [] {
      NoMoreThanComing(Next(x, es[0]), es[1..], z);
      match es[0] {
        case CheckEnds(k, reached, inService) =>
        case Ends =>
      }
    }
  }

  /** A live check can bring a grant. */
  lemma OneAtMostMeansComing(x: Exchange)
    ensures AtMostOneReply(x) <==> Coming(x) <= 1
  {
    if Coming(x) <= 1 {
      forall es, z | Continues(x, es, z) ensures |z.replies| <= 1 { NoMoreThanComing(x, es, z); }
    } else if x.checks == {} {
      assert Continues(x, [], x);
    } else {
      var k :| k in x.checks;
      var e := CheckEnds(k, true, false);
      var z := Next(x, e);
      assert [e][1..] == [] && Continues(z, [], z);
      assert Continues(x, [e], z);
    }
  }

  /** The request turns the exchange away unanswered, or is to be granted to a peer in service. */
  predicate TurnedAway(env: Setting, req: Request, own: bool, inService: bool) {
    var e := Step.Request(env, req, own, inService);
    EndDue(e) || ((NodeDue(e) || ClientDue(e)) && inService)
  }

  /** The request is from a node that must be reachable, and everything else about it is in order. */
  predicate ChecksAsked(env: Setting, req: Request, own: bool) {
    && req.Bootstrap? && req.reach.Required?
    && env.acceptBootstrap && !own && env.hashMatches && env.nodeListed && env.requireReachability
  }

  /** What a request adds to replies and live checks. */
  lemma RequestAdds(x: Exchange, env: Setting, req: Request, own: bool, inService: bool)
    requires x.fate == Open
    ensures var y := Requested(x, env, req, own, inService);
            if TurnedAway(env, req, own, inService) then y.replies == x.replies && y.checks == {}
            else if ChecksAsked(env, req, own) then
              var ks := x.checks + ChecksOn(req.reach.listeners);
              y.checks == ks && |y.replies| == |x.replies| + (if ks == {} then 1 else 0)
            else |y.replies| == |x.replies| + 1 && y.checks == x.checks
  {
  }

  /** A further request, on an exchange that was asked already: there is still at most one reply if and
      only if it is turned away, or it too leads only to checks while the first one's are live. */
  lemma SecondReply(x: Exchange, env: Setting, req: Request, own: bool, inService: bool)
    requires Inv(x) && x.asked && x.fate == Open
    ensures AtMostOneReply(Requested(x, env, req, own, inService)) <==>
            TurnedAway(env, req, own, inService) || (ChecksAsked(env, req, own) && x.checks != {})
  {
    var y := Requested(x, env, req, own, inService);
    assert AtMostOneReply(y) <==> Coming(y) <= 1 by { OneAtMostMeansComing(y); }
    RequestAdds(x, env, req, own, inService);
    if ChecksAsked(env, req, own) { assert x.checks <= x.checks + ChecksOn(req.reach.listeners); }
  }

  /** Checks are started for a node that must be reachable once everything else about its request was found
      in order, one for every global address where one can be, and at no other step. */
  lemma CheckedOnlyIfRequired(xs: seq<Exchange>, es: seq<Step>, n: nat)
    requires IsRun(xs, es) && n < |es|
    ensures xs[n + 1].started ==
              if es[n].Request? && ChecksAsked(es[n].env, es[n].req, es[n].own) then
                ChecksOn(es[n].req.reach.listeners)
              else xs[n].started
  {
    RunKeeps(xs, es, n);
  }
}
