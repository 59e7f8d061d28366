/** Mapping a socket: collecting the addresses that gateways and peers report, and finishing once. */
module Mapping {

  type Addr = nat
  type Token = nat

  /** The state of one mapping. `unanswered` is the environment's: gateway threads that have not sent
      their answer yet, or never will. `finished` is history: the address lists handed to `finish`. */
  datatype Mapping = Mapping(live: bool, igdChildren: int, stunChildren: set<Token>, addrs: seq<Addr>, unanswered: nat,
      finished: seq<seq<Addr>>)

  function Finish(m: Mapping): Mapping {
    Mapping(false, m.igdChildren, {}, [], m.unanswered, m.finished + [m.addrs])
  }

  function MaybeFinish(m: Mapping): Mapping {
    if m.stunChildren == {} && m.igdChildren == 0 then Finish(m) else m
  }

  function Start(ifs: seq<Addr>, gateways: nat, stuns: set<Token>): Mapping {
    MaybeFinish(Mapping(true, gateways, stuns, ifs, gateways, []))
  }

  datatype Answer = NoAnswer | Reported(addr: Addr)

  datatype Step = Igd(addr: Addr) | Stun(child: Token, res: Answer) | Timeout

  /** A gateway thread answers at most once; only a live peer query calls back; the timeout finds the
      mapping in the table or is ignored. */
  predicate Enabled(m: Mapping, e: Step) {
    match e
    case Igd(_) => m.unanswered > 0
    case Stun(child, _) => child in m.stunChildren
    case Timeout => m.live
  }

  function Next(m: Mapping, e: Step): Mapping
    requires Enabled(m, e)
  {
    match e
    case Igd(a) =>
      var m' := m.(unanswered := m.unanswered - 1);
      if !m.live then m' else MaybeFinish(m'.(igdChildren := m.igdChildren - 1, addrs := m.addrs + [a]))
    case Stun(child, res) =>
      MaybeFinish(m.(stunChildren := m.stunChildren - {child}, addrs := m.addrs + Given(e)))
    case Timeout => Finish(m)
  }

  /** The address a step brings, if any. */
  function Given(e: Step): seq<Addr> {
    match e
    case Igd(a) => [a]
    case Stun(_, Reported(a)) => [a]
    case _ => []
  }

  function AllGiven(es: seq<Step>): seq<Addr> {
    if es == [] then [] else AllGiven(es[..|es| - 1]) + Given(es[|es| - 1])
  }

  class MappedTcpSocket {
    var live: bool
    var socket: bool
    var finish: bool
    var igdChildren: int
    var stunChildren: set<Token>
    var mappedAddrs: seq<Addr>
    ghost var unanswered: nat
    ghost var finished: seq<seq<Addr>>

    ghost function View(): Mapping
      reads this
    {
      Mapping(live, igdChildren, stunChildren, mappedAddrs, unanswered, finished)
    }

    /** The socket and the callback are there to be taken exactly while the mapping is live. */
    ghost predicate Valid()
      reads this
    {
      socket == live && finish == live
    }

    /** One query per interface with a gateway, each interface's own address from the start. */
    constructor (interfaces: seq<(Addr, bool)>, stuns: set<Token>)
      ensures Valid()
      ensures View() == Start(Locals(interfaces), Gateways(interfaces), stuns)
    {
      live, socket, finish := true, true, true;
      stunChildren := stuns;
      unanswered, finished := Gateways(interfaces), [];
      var igd := 0;
      var addrs := [];
      for i := 0 to |interfaces|
        invariant igd == Gateways(interfaces[..i]) && addrs == Locals(interfaces[..i])
      {
        assert interfaces[..i + 1][..i] == interfaces[..i];
        addrs := addrs + [interfaces[i].0];
        if interfaces[i].1 {
          igd := igd + 1;
        }
      }
      assert interfaces[..|interfaces|] == interfaces;
      igdChildren, mappedAddrs := igd, addrs;
      new;
      if stunChildren == {} && igdChildren == 0 {
        Terminate();
      }
    }

    /** Takes the socket and the callback, which are there, and hands over the addresses. */
    method Terminate()
      requires Valid() && live
      modifies this
      ensures Valid() && View() == Finish(old(View()))
    {
      while stunChildren != {}
        invariant Valid() && View() == old(View()).(stunChildren := stunChildren)
        decreases stunChildren
      {
        var child :| child in stunChildren;
        stunChildren := stunChildren - {child};
      }
      live := false;
      assert socket && finish;
      socket, finish := false, false;
      finished := finished + [mappedAddrs];
      mappedAddrs := [];
    }

    method HandleStunResp(child: Token, res: Answer)
      requires Valid() && live
      modifies this
      ensures Valid()
      ensures var m := old(View());
              var addrs := m.addrs + Given(Stun(child, res));
              View() == MaybeFinish(m.(stunChildren := m.stunChildren - {child}, addrs := addrs))
    {
      stunChildren := stunChildren - {child};
      assert mappedAddrs + [] == mappedAddrs;
      if res.Reported? {
        mappedAddrs := mappedAddrs + [res.addr];
      }
      if stunChildren == {} && igdChildren == 0 {
        Terminate();
      }
    }

    /** A gateway's answer; one that comes after the mapping has finished finds no state. */
    method HandleIgdResp(addr: Addr)
      requires Valid() && unanswered > 0
      modifies this
      ensures Valid() && View() == Next(old(View()), Igd(addr))
    {
      unanswered := unanswered - 1;
      if !live {
        return;
      }
      igdChildren := igdChildren - 1;
      mappedAddrs := mappedAddrs + [addr];
      if stunChildren == {} && igdChildren == 0 {
        Terminate();
      }
    }
  }

  function Locals(interfaces: seq<(Addr, bool)>): seq<Addr> {
    if interfaces == [] then [] else Locals(interfaces[..|interfaces| - 1]) + [interfaces[|interfaces| - 1].0]
  }

  function Gateways(interfaces: seq<(Addr, bool)>): nat {
    if interfaces == [] then 0
    else Gateways(interfaces[..|interfaces| - 1]) + (if interfaces[|interfaces| - 1].1 then 1 else 0)
  }

  // ----- Runs -----

  ghost predicate IsRun(ifs: seq<Addr>, gateways: nat, stuns: set<Token>, ms: seq<Mapping>, es: seq<Step>) {
    && |ms| == |es| + 1
    && ms[0] == Start(ifs, gateways, stuns)
    && forall i :: 0 <= i < |es| ==> Enabled(ms[i], es[i]) && ms[i + 1] == Next(ms[i], es[i])
  }

  /** While live nothing has been finished and every answer so far is kept in order; once not, exactly
      one list was handed over: the answers up to some moment. */
  ghost predicate Inv(ifs: seq<Addr>, es: seq<Step>, n: nat, m: Mapping)
    requires n <= |es|
  {
    && (m.live ==>
          && m.finished == [] && m.addrs == ifs + AllGiven(es[..n])
          && m.igdChildren == m.unanswered && (m.stunChildren != {} || m.igdChildren != 0))
    && (!m.live ==>
          && m.stunChildren == {} && m.igdChildren >= 0
          && exists k :: 0 <= k <= n && m.finished == [ifs + AllGiven(es[..k])])
  }

  lemma {:induction false} RunKeeps(ifs: seq<Addr>, gateways: nat, stuns: set<Token>, ms: seq<Mapping>, es: seq<Step>,
      n: nat)
    requires IsRun(ifs, gateways, stuns, ms, es) && n < |ms|
    ensures Inv(ifs, es, n, ms[n])
    decreases n
  {
    assert es[..0] == [];
    assert ifs + [] == ifs;
    if n == 0 {
      assert !ms[0].live ==> ms[0].finished == [ifs + AllGiven(es[..0])];
    } else {
      var m, e := ms[n - 1], es[n - 1];
      RunKeeps(ifs, gateways, stuns, ms, es, n - 1);
      assert ms[n] == Next(m, e);
      assert es[..n][..n - 1] == es[..n - 1];
      assert AllGiven(es[..n]) == AllGiven(es[..n - 1]) + Given(e);
      if m.live {
        assert m.addrs + [] == m.addrs;
        assert ifs + AllGiven(es[..n]) == (ifs + AllGiven(es[..n - 1])) + Given(e);
        assert !ms[n].live ==> ms[n].finished == [ifs + AllGiven(es[..n])];
      } else {
        var k :| 0 <= k <= n - 1 && m.finished == [ifs + AllGiven(es[..k])];
        assert ms[n].finished == [ifs + AllGiven(es[..k])];
      }
    }
  }

  /** Over every order of answers and the timeout, `finish` runs at most once, and has run exactly when
      the mapping is gone; it is given the interfaces' own addresses followed by the answers that had
      come by then, in order of arrival. The count of gateways never goes below zero. */
  lemma FinishesOnce(ifs: seq<Addr>, gateways: nat, stuns: set<Token>, ms: seq<Mapping>, es: seq<Step>, n: nat)
    requires IsRun(ifs, gateways, stuns, ms, es) && n < |ms|
    ensures |ms[n].finished| == if ms[n].live then 0 else 1
    ensures ms[n].igdChildren >= 0
    ensures n > 0 && ms[n - 1].live && !ms[n].live ==> ms[n].finished == [ifs + AllGiven(es[..n])]
    ensures n > 0 && !ms[n - 1].live ==> ms[n].finished == ms[n - 1].finished
  {
    RunKeeps(ifs, gateways, stuns, ms, es, n);
    if n > 0 {
      RunKeeps(ifs, gateways, stuns, ms, es, n - 1);
      assert ms[n] == Next(ms[n - 1], es[n - 1]);
      assert es[..n][..n - 1] == es[..n - 1];
      HandedOver(ms[n - 1], es[n - 1], ifs, AllGiven(es[..n - 1]));
    }
  }

  /** The step that finishes hands over what was there and what it brings itself. */
  lemma HandedOver(m: Mapping, e: Step, ifs: seq<Addr>, given: seq<Addr>)
    requires Enabled(m, e) && (m.live ==> m.addrs == ifs + given && m.finished == [])
             && (!m.live ==> m.stunChildren == {})
    ensures m.live && !Next(m, e).live ==> Next(m, e).finished == [ifs + (given + Given(e))]
    ensures !m.live ==> Next(m, e).finished == m.finished
  {
    assert (ifs + given) + [] == ifs + given;
    assert ifs + (given + Given(e)) == (ifs + given) + Given(e);
  }

  // ----- When it finishes -----

  /** How many gateways have answered, and which peers. */
  function GatewaysHeard(es: seq<Step>): nat {
    if es == [] then 0 else GatewaysHeard(es[..|es| - 1]) + (if es[|es| - 1].Igd? then 1 else 0)
  }

  function PeersHeard(es: seq<Step>): set<Token> {
    set i | 0 <= i < |es| && es[i].Stun? :: es[i].child
  }

  lemma PeersHeardAppend(es: seq<Step>, e: Step)
    ensures PeersHeard(es + [e]) == PeersHeard(es) + (if e.Stun? then {e.child} else {})
  {
    var all := es + [e];
    forall c | c in PeersHeard(es) ensures c in PeersHeard(all) {
      var i :| 0 <= i < |es| && es[i].Stun? && es[i].child == c;
      assert all[i] == es[i];
    }
    if e.Stun? { assert all[|es|] == e && e.child in PeersHeard(all); }
  }

  ghost predicate Awaited(gateways: nat, stuns: set<Token>, es: seq<Step>) {
    Timeout !in es && (GatewaysHeard(es) < gateways || !(stuns <= PeersHeard(es)))
  }

  ghost predicate Counts(gateways: nat, stuns: set<Token>, es: seq<Step>, m: Mapping) {
    && GatewaysHeard(es) + m.unanswered == gateways
    && (m.live <==> Awaited(gateways, stuns, es))
    && (m.live ==> m.igdChildren == m.unanswered && m.stunChildren == stuns - PeersHeard(es))
    && (!m.live ==> m.stunChildren == {})
  }

  lemma CountsStep(gateways: nat, stuns: set<Token>, es: seq<Step>, m: Mapping, e: Step)
    requires Counts(gateways, stuns, es, m) && Enabled(m, e)
    ensures Counts(gateways, stuns, es + [e], Next(m, e))
  {
    assert (es + [e])[..|es|] == es;
    PeersHeardAppend(es, e);
    assert stuns - PeersHeard(es + [e]) == (stuns - PeersHeard(es)) - (if e.Stun? then {e.child} else {});
    assert stuns - PeersHeard(es + [e]) == {} <==> stuns <= PeersHeard(es + [e]);
    assert Timeout in es + [e] <==> Timeout in es || e == Timeout;
  }

  /** Over every order of answers, the mapping is there until every gateway and every peer that was asked has
      answered, or the time is up, and no longer. */
  lemma {:induction false} WaitsForAll(ifs: seq<Addr>, gateways: nat, stuns: set<Token>, ms: seq<Mapping>,
      es: seq<Step>, n: nat)
    requires IsRun(ifs, gateways, stuns, ms, es) && n < |ms|
    ensures ms[n].live <==>
            Timeout !in es[..n] && (GatewaysHeard(es[..n]) < gateways || !(stuns <= PeersHeard(es[..n])))
    ensures Counts(gateways, stuns, es[..n], ms[n])
    decreases n
  {
    if n == 0 {
      assert es[..0] == [] && PeersHeard([]) == {};
      assert stuns - {} == stuns;
    } else {
      WaitsForAll(ifs, gateways, stuns, ms, es, n - 1);
      assert es[..n] == es[..n - 1] + [es[n - 1]];
      CountsStep(gateways, stuns, es[..n - 1], ms[n - 1], es[n - 1]);
    }
  }

  /** Each interface's own address is listed once, in order, and each that has a gateway counts. */
  lemma {:induction false} InterfacesAsked(interfaces: seq<(Addr, bool)>)
    ensures |Locals(interfaces)| == |interfaces|
    ensures forall i :: 0 <= i < |interfaces| ==> Locals(interfaces)[i] == interfaces[i].0
    ensures Gateways(interfaces) == |set i | 0 <= i < |interfaces| && interfaces[i].1|
  {
    var with := set i | 0 <= i < |interfaces| && interfaces[i].1;
    if interfaces == [] {
      assert with == {};
    } else {
      var n := |interfaces| - 1;
      var front := interfaces[..n];
      InterfacesAsked(front);
      var before := set i | 0 <= i < |front| && front[i].1;
      assert with == before + (if interfaces[n].1 then {n} else {});
      assert n !in before;
    }
  }
}
