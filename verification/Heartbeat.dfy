/** Heartbeats between two peers in service: time in milliseconds, exact timers, messages that take
    at most a given delay. */
module Heartbeat {
  import opened Options

  const INACTIVITY_TIMEOUT_MS: nat := 120_000
  const HEARTBEAT_PERIOD_MS: nat := 20_000

  /** When the two timers of a connection are due, and when its peer was last heard (or service began). */
  datatype Clock = Clock(recvDue: nat, sendDue: nat, heard: nat)

  function Started(now: nat): Clock {
    Clock(now + INACTIVITY_TIMEOUT_MS, now + HEARTBEAT_PERIOD_MS, now)
  }

  function Heard(k: Clock, now: nat): Clock {
    k.(recvDue := now + INACTIVITY_TIMEOUT_MS, heard := now)
  }

  function Sent(k: Clock, now: nat): Clock {
    k.(sendDue := now + HEARTBEAT_PERIOD_MS)
  }

  /** The receive timer is due exactly the timeout after the peer was last heard, the send timer within
      a period, and neither is overdue. */
  predicate ClockOk(k: Clock, now: nat) {
    && now <= k.recvDue == k.heard + INACTIVITY_TIMEOUT_MS
    && now <= k.sendDue <= now + HEARTBEAT_PERIOD_MS
    && k.heard <= now
  }

  datatype Action = Send | Terminate

  const RECV_TIMER: nat := 0
  const SEND_TIMER: nat := 1

  /** The timers as a connection in service holds them. */
  class Heartbeat {
    var recvTimeout: nat
    var sendTimeout: nat
    ghost var heard: nat

    ghost function View(): Clock
      reads this
    {
      Clock(recvTimeout, sendTimeout, heard)
    }

    ghost predicate Valid(now: nat)
      reads this
    {
      ClockOk(View(), now)
    }

    constructor (now: nat)
      ensures Valid(now) && heard == now && sendTimeout == now + HEARTBEAT_PERIOD_MS
    {
      recvTimeout, sendTimeout := now + INACTIVITY_TIMEOUT_MS, now + HEARTBEAT_PERIOD_MS;
      heard := now;
    }

    /** One of the timers fires, at the moment it is due. The connection is given up only after a
        silence of exactly the timeout; otherwise something is sent, once per period. */
    method Timeout(now: nat, timerId: nat) returns (a: Action)
      requires Valid(now)
      requires now == if timerId == RECV_TIMER then recvTimeout else sendTimeout
      modifies this`sendTimeout
      ensures Valid(now)
      ensures a == Terminate ==> now == heard + INACTIVITY_TIMEOUT_MS && sendTimeout == old(sendTimeout)
      ensures a == Send ==> now == old(sendTimeout) && sendTimeout == now + HEARTBEAT_PERIOD_MS
      ensures a == Terminate <==> timerId == RECV_TIMER
    {
      if timerId == RECV_TIMER {
        return Terminate;
      }
      sendTimeout := now + HEARTBEAT_PERIOD_MS;
      return Send;
    }

    /** The peer is heard: by `Valid` it has the whole timeout again. When we next send is unaffected. */
    method ResetReceive(now: nat)
      requires Valid(now)
      modifies this`recvTimeout, this`heard
      ensures Valid(now) && heard == now
    {
      recvTimeout := now + INACTIVITY_TIMEOUT_MS;
      heard := now;
    }

    /** Data was sent, which does for a heartbeat. What is expected of the peer is unaffected. */
    method ResetSend(now: nat)
      requires Valid(now)
      modifies this`sendTimeout
      ensures Valid(now) && sendTimeout == now + HEARTBEAT_PERIOD_MS
    {
      sendTimeout := now + HEARTBEAT_PERIOD_MS;
    }
  }

  // ----- Two peers -----

  datatype Side = Hi | Lo

  /** `NotYet` is the side that has still to be chosen. */
  datatype Peer = NotYet | Live(clock: Clock) | Lost(at: nat, heard: nat) | Gone

  /** `choice` is the choice in transit; `toHi` and `toLo` are the messages in transit. Each is given
      by the latest moment it may arrive. */
  datatype Net = Net(now: nat, hi: Peer, lo: Peer, choice: Option<nat>, toHi: seq<nat>, toLo: seq<nat>) {
    function At(side: Side): Peer { if side.Hi? then hi else lo }
    function Inbox(side: Side): seq<nat> { if side.Hi? then toHi else toLo }
    function Put(side: Side, p: Peer): Net { if side.Hi? then this.(hi := p) else this.(lo := p) }
    function SetInbox(side: Side, q: seq<nat>): Net { if side.Hi? then this.(toHi := q) else this.(toLo := q) }
  }

  function Other(side: Side): Side { if side.Hi? then Lo else Hi }

  datatype Step =
    | Advance(ms: nat)
    | Choose
    | Beat(side: Side, delay: nat)
    | Data(side: Side, delay: nat)
    | Deliver(side: Side)
    | Expire(side: Side)
    | Quit(side: Side)

  predicate Open(p: Peer) {
    p.NotYet? || p.Live?
  }

  predicate NotPast(q: seq<nat>, now: nat) {
    forall i :: 0 <= i < |q| ==> now <= q[i]
  }

  /** Nothing due is left behind by letting time run to `now`. */
  predicate Timely(n: Net, now: nat) {
    && (n.hi.Live? ==> now <= n.hi.clock.recvDue && now <= n.hi.clock.sendDue)
    && (n.lo.Live? ==> now <= n.lo.clock.recvDue && now <= n.lo.clock.sendDue)
    && (n.lo.NotYet? ==> n.choice.Some? && now <= n.choice.value)
    && (Open(n.hi) ==> NotPast(n.toHi, now))
    && (Open(n.lo) ==> NotPast(n.toLo, now))
  }

  predicate Can(n: Net, e: Step) {
    match e
    case Advance(ms) => Timely(n, n.now + ms)
    case Choose => n.lo.NotYet?
    case Beat(side, _) => n.At(side).Live? && n.now == n.At(side).clock.sendDue
    case Data(side, _) => n.At(side).Live?
    case Deliver(side) => n.At(side).Live? && n.Inbox(side) != []
    case Expire(side) => n.At(side).Live? && n.now == n.At(side).clock.recvDue
    case Quit(side) => n.At(side).Live?
  }

  /** `d` bounds the delay of every message. */
  predicate Enabled(d: nat, n: Net, e: Step) {
    Can(n, e) && (e.Beat? || e.Data? ==> e.delay <= d)
  }

  function SendMessage(n: Net, side: Side, delay: nat): Net
    requires n.At(side).Live?
  {
    n.Put(side, Live(Sent(n.At(side).clock, n.now))).SetInbox(Other(side), n.Inbox(Other(side)) + [n.now + delay])
  }

  function Next(n: Net, e: Step): Net
    requires Can(n, e)
  {
    match e
    case Advance(ms) => n.(now := n.now + ms)
    case Choose => n.(lo := Live(Started(n.now)), choice := None)
    case Beat(side, delay) => SendMessage(n, side, delay)
    case Data(side, delay) => SendMessage(n, side, delay)
    case Deliver(side) => n.Put(side, Live(Heard(n.At(side).clock, n.now))).SetInbox(side, n.Inbox(side)[1..])
    case Expire(side) => n.Put(side, Lost(n.now, n.At(side).clock.heard))
    case Quit(side) => n.Put(side, Gone)
  }

  /** The chooser has just entered service; its choice is under way. */
  predicate Starts(d: nat, n: Net) {
    n.now == 0 && n.hi == Live(Started(0)) && n.lo == NotYet && n.choice.Some? && n.choice.value <= d && n.toHi == []
        && n.toLo == []
  }

  ghost predicate IsRun(d: nat, ns: seq<Net>, es: seq<Step>) {
    && |ns| == |es| + 1
    && Starts(d, ns[0])
    && forall i :: 0 <= i < |es| ==> Enabled(d, ns[i], es[i]) && ns[i + 1] == Next(ns[i], es[i])
  }

  // ----- Time -----

  predicate PeerOk(p: Peer, now: nat) {
    && (p.Live? ==> ClockOk(p.clock, now))
    && (p.Lost? ==> p.at == p.heard + INACTIVITY_TIMEOUT_MS)
  }

  predicate Soon(q: seq<nat>, limit: nat) {
    forall i :: 0 <= i < |q| ==> q[i] <= limit
  }

  ghost predicate TimeOk(d: nat, n: Net) {
    && Timely(n, n.now)
    && PeerOk(n.hi, n.now) && PeerOk(n.lo, n.now)
    && !n.hi.NotYet?
    && (n.choice.Some? ==> n.choice.value <= n.now + d)
    && (Open(n.hi) ==> Soon(n.toHi, n.now + d)) && (Open(n.lo) ==> Soon(n.toLo, n.now + d))
  }

  lemma AdvanceTimeOk(d: nat, n: Net, ms: nat)
    requires TimeOk(d, n) && Timely(n, n.now + ms)
    ensures TimeOk(d, n.(now := n.now + ms))
  {
  }

  lemma SendTimeOk(d: nat, n: Net, side: Side, delay: nat)
    requires TimeOk(d, n) && n.At(side).Live? && delay <= d
    ensures TimeOk(d, SendMessage(n, side, delay))
  {
    var n' := SendMessage(n, side, delay);
    var was, q := n.Inbox(Other(side)), n'.Inbox(Other(side));
    assert forall i :: 0 <= i < |was| ==> q[i] == was[i];
    assert Open(n.At(Other(side))) ==> NotPast(q, n.now) && Soon(q, n.now + d);
  }

  lemma DeliverTimeOk(d: nat, n: Net, side: Side)
    requires TimeOk(d, n) && Can(n, Deliver(side))
    ensures TimeOk(d, Next(n, Deliver(side)))
  {
    var n' := Next(n, Deliver(side));
    var was, q := n.Inbox(side), n'.Inbox(side);
    assert forall i :: 0 <= i < |q| ==> q[i] == was[i + 1];
    assert NotPast(q, n.now) && Soon(q, n.now + d);
  }

  lemma StepTimeOk(d: nat, n: Net, e: Step)
    requires TimeOk(d, n) && Enabled(d, n, e)
    ensures TimeOk(d, Next(n, e))
  {
    match e {
      case Advance(ms) => AdvanceTimeOk(d, n, ms);
      case Choose =>
      case Beat(side, delay) => SendTimeOk(d, n, side, delay);
      case Data(side, delay) => SendTimeOk(d, n, side, delay);
      case Deliver(side) => DeliverTimeOk(d, n, side);
      case Expire(side) =>
      case Quit(side) =>
    }
  }

  lemma {:induction false} RunTimeOk(d: nat, ns: seq<Net>, es: seq<Step>, i: nat)
    requires IsRun(d, ns, es) && i < |ns|
    ensures TimeOk(d, ns[i])
    decreases i
  {
    if i > 0 {
      RunTimeOk(d, ns, es, i - 1);
      StepTimeOk(d, ns[i - 1], es[i - 1]);
    }
  }

  /** In every run a connection is dropped for inactivity exactly the timeout after its peer was last
      heard, and none stays in service beyond that. */
  lemma SilentIsDroppedOnTime(d: nat, ns: seq<Net>, es: seq<Step>, i: nat, side: Side)
    requires IsRun(d, ns, es) && i < |ns|
    ensures ns[i].At(side).Lost? ==> ns[i].At(side).at == ns[i].At(side).heard + INACTIVITY_TIMEOUT_MS
    ensures ns[i].At(side).Live? ==> ns[i].now <= ns[i].At(side).clock.heard + INACTIVITY_TIMEOUT_MS
  {
    RunTimeOk(d, ns, es, i);
  }

  // ----- The same, in place -----

  /** One side: not chosen yet, in service with its timers, or out of it. */
  datatype Station =
    | Unchosen
    | InService(beat: Heartbeat)
    | TimedOut(beat: Heartbeat, at: nat)
    | Left
  {
    ghost function Beats(): set<Heartbeat> {
      match this
      case InService(b) => {b}
      case TimedOut(b, _) => {b}
      case _ => {}
    }

    ghost function View(): Peer
      reads Beats()
    {
      match this
      case Unchosen => NotYet
      case InService(b) => Live(b.View())
      case TimedOut(b, at) => Lost(at, b.heard)
      case Left => Gone
    }
  }

  /** Both sides with their timers, and what is under way between them. */
  class Pair {
    var now: nat
    var hi: Station
    var lo: Station
    var choice: Option<nat>
    var toHi: seq<nat>
    var toLo: seq<nat>

    ghost function View(): Net
      reads this, hi.Beats(), lo.Beats()
    {
      Net(now, hi.View(), lo.View(), choice, toHi, toLo)
    }

    ghost predicate Valid(d: nat)
      reads this, hi.Beats(), lo.Beats()
    {
      hi.Beats() !! lo.Beats() && TimeOk(d, View())
    }

    /** The chooser enters service as its choice leaves, to arrive by `latest`. */
    constructor (d: nat, latest: nat)
      requires latest <= d
      ensures Valid(d) && Starts(d, View()) && fresh(hi.Beats())
    {
      var beat := new Heartbeat(0);
      now, hi, lo, choice, toHi, toLo := 0, InService(beat), Unchosen, Some(latest), [], [];
    }

    method Advance(d: nat, ms: nat)
      requires Valid(d) && Enabled(d, View(), Step.Advance(ms))
      modifies this`now
      ensures Valid(d) && View() == Next(old(View()), Step.Advance(ms))
    {
      StepTimeOk(d, View(), Step.Advance(ms));
      now := now + ms;
    }

    method Choose(d: nat)
      requires Valid(d) && Enabled(d, View(), Step.Choose)
      modifies this`lo, this`choice
      ensures Valid(d) && View() == Next(old(View()), Step.Choose) && fresh(lo.Beats())
    {
      StepTimeOk(d, View(), Step.Choose);
      var beat := new Heartbeat(now);
      lo, choice := InService(beat), None;
    }

    /** The receive timer fires. */
    method FireReceive(d: nat, side: Side)
      requires Valid(d) && Enabled(d, View(), Expire(side))
      modifies this`hi, this`lo, hi.Beats(), lo.Beats()
      ensures Valid(d) && View() == Next(old(View()), Expire(side))
      ensures hi.Beats() == old(hi.Beats()) && lo.Beats() == old(lo.Beats())
    {
      StepTimeOk(d, View(), Expire(side));
      var beat := if side.Hi? then hi.beat else lo.beat;
      var a := beat.Timeout(now, RECV_TIMER);
      if a.Terminate? {
        if side.Hi? { hi := TimedOut(beat, now); } else { lo := TimedOut(beat, now); }
      }
    }

    /** The send timer fires. */
    method FireSend(d: nat, side: Side, delay: nat)
      requires Valid(d) && Enabled(d, View(), Beat(side, delay))
      modifies this`toHi, this`toLo, hi.Beats(), lo.Beats()
      ensures Valid(d) && View() == Next(old(View()), Beat(side, delay))
    {
      StepTimeOk(d, View(), Beat(side, delay));
      var beat := if side.Hi? then hi.beat else lo.beat;
      var a := beat.Timeout(now, SEND_TIMER);
      if a.Send? {
        if side.Hi? { toLo := toLo + [now + delay]; } else { toHi := toHi + [now + delay]; }
      }
    }

    method SendData(d: nat, side: Side, delay: nat)
      requires Valid(d) && Enabled(d, View(), Data(side, delay))
      modifies this`toHi, this`toLo, hi.Beats(), lo.Beats()
      ensures Valid(d) && View() == Next(old(View()), Data(side, delay))
    {
      StepTimeOk(d, View(), Data(side, delay));
      if side.Hi? {
        toLo := toLo + [now + delay];
        hi.beat.ResetSend(now);
      } else {
        toHi := toHi + [now + delay];
        lo.beat.ResetSend(now);
      }
    }

    method Receive(d: nat, side: Side)
      requires Valid(d) && Enabled(d, View(), Deliver(side))
      modifies this`toHi, this`toLo, hi.Beats(), lo.Beats()
      ensures Valid(d) && View() == Next(old(View()), Deliver(side))
    {
      StepTimeOk(d, View(), Deliver(side));
      if side.Hi? {
        toHi := toHi[1..];
        hi.beat.ResetReceive(now);
      } else {
        toLo := toLo[1..];
        lo.beat.ResetReceive(now);
      }
    }

    method Leave(d: nat, side: Side)
      requires Valid(d) && Enabled(d, View(), Quit(side))
      modifies this`hi, this`lo
      ensures Valid(d) && View() == Next(old(View()), Quit(side))
      ensures hi.Beats() <= old(hi.Beats()) && lo.Beats() <= old(lo.Beats())
    {
      StepTimeOk(d, View(), Quit(side));
      if side.Hi? { hi := Left; } else { lo := Left; }
    }

    method Do(d: nat, e: Step)
      requires Valid(d) && Enabled(d, View(), e)
      modifies this, hi.Beats(), lo.Beats()
      ensures Valid(d) && View() == Next(old(View()), e)
      ensures fresh(hi.Beats() + lo.Beats() - old(hi.Beats() + lo.Beats()))
    {
      match e {
        case Advance(ms) => Advance(d, ms);
        case Choose => Choose(d);
        case Beat(side, delay) => FireSend(d, side, delay);
        case Data(side, delay) => SendData(d, side, delay);
        case Deliver(side) => Receive(d, side);
        case Expire(side) => FireReceive(d, side);
        case Quit(side) => Leave(d, side);
      }
    }

    /** Any schedule of steps: with delays short enough, neither side's receive timer can fire at the
        end of it while the other side is there. */
    method Drive(d: nat, es: seq<Step>)
      requires Valid(d) && KeepsUp(d, View()) && HEARTBEAT_PERIOD_MS + 2 * d < INACTIVITY_TIMEOUT_MS
      requires Schedule(d, View(), es)
      modifies this, hi.Beats(), lo.Beats()
      ensures Valid(d) && Reaches(d, old(View()), es, View())
      ensures !Wrongful(d, View(), Hi) && !Wrongful(d, View(), Lo)
      decreases |es|
    {
      ghost var start := View();
      if es != [] {
        StepKeepsUp(d, start, es[0]);
        Do(d, es[0]);
        Drive(d, es[1..]);
      }
    }
  }

  /** Each step is possible when its turn comes. */
  ghost predicate Schedule(d: nat, n: Net, es: seq<Step>)
    decreases |es|
  {
    es != [] ==> Enabled(d, n, es[0]) && Schedule(d, Next(n, es[0]), es[1..])
  }

  // ----- Two live peers keep each other -----

  /** Something will reach a receiver whose timer is due at `recvDue`: a message is on its way and in
      time, or the sender will send one that is. */
  ghost predicate Assured(d: nat, recvDue: nat, inbox: seq<nat>, sender: Peer, choice: Option<nat>) {
    || (exists i :: 0 <= i < |inbox| && inbox[i] < recvDue)
    || (sender.Live? && sender.clock.sendDue + d < recvDue)
    || (sender.NotYet? && choice.Some? && choice.value + HEARTBEAT_PERIOD_MS + d < recvDue)
  }

  ghost predicate KeepsUp(d: nat, n: Net) {
    n.hi.Live? && Open(n.lo) ==>
      && Assured(d, n.hi.clock.recvDue, n.toHi, n.lo, n.choice)
      && (n.lo.Live? ==> Assured(d, n.lo.clock.recvDue, n.toLo, n.hi, None))
  }

  lemma SentIsAssured(d: nat, recvDue: nat, inbox: seq<nat>, k: Clock, now: nat, delay: nat, choice: Option<nat>)
    requires Assured(d, recvDue, inbox, Live(k), choice) && now <= k.sendDue && delay <= d
    ensures Assured(d, recvDue, inbox + [now + delay], Live(Sent(k, now)), choice)
  {
    var inbox' := inbox + [now + delay];
    if i :| 0 <= i < |inbox| && inbox[i] < recvDue {
      assert inbox'[i] < recvDue;
    } else {
      assert inbox'[|inbox|] < recvDue;
    }
  }

  lemma StepKeepsUp(d: nat, n: Net, e: Step)
    requires HEARTBEAT_PERIOD_MS + 2 * d < INACTIVITY_TIMEOUT_MS
    requires TimeOk(d, n) && KeepsUp(d, n) && Enabled(d, n, e)
    ensures KeepsUp(d, Next(n, e))
  {
    var n' := Next(n, e);
    if n.hi.Live? && n.lo.Live? && (e.Beat? || e.Data?) {
      var to := n.At(Other(e.side)).clock.recvDue;
      var choice := if e.side.Lo? then n.choice else None;
      SentIsAssured(d, to, n.Inbox(Other(e.side)), n.At(e.side).clock, n.now, e.delay, choice);
    }
  }

  lemma {:induction false} RunKeepsUp(d: nat, ns: seq<Net>, es: seq<Step>, i: nat)
    requires HEARTBEAT_PERIOD_MS + 2 * d < INACTIVITY_TIMEOUT_MS
    requires IsRun(d, ns, es) && i < |ns|
    ensures KeepsUp(d, ns[i])
    decreases i
  {
    if i > 0 {
      RunKeepsUp(d, ns, es, i - 1);
      RunTimeOk(d, ns, es, i - 1);
      StepKeepsUp(d, ns[i - 1], es[i - 1]);
    }
  }

  /** The receive timer of one side can fire while the other side is still there. */
  predicate Wrongful(d: nat, n: Net, side: Side) {
    Enabled(d, n, Expire(side)) && Open(n.At(Other(side)))
  }

  /** With delays short enough no run gets there, whatever data is sent. */
  lemma NeverWrongful(d: nat, ns: seq<Net>, es: seq<Step>, i: nat, side: Side)
    requires HEARTBEAT_PERIOD_MS + 2 * d < INACTIVITY_TIMEOUT_MS
    requires IsRun(d, ns, es) && i < |ns|
    ensures !Wrongful(d, ns[i], side)
  {
    RunTimeOk(d, ns, es, i);
    RunKeepsUp(d, ns, es, i);
  }

  // ----- And not otherwise -----

  ghost predicate Reaches(d: nat, n: Net, es: seq<Step>, n': Net)
    decreases |es|
  {
    if es == [] then n == n' else Enabled(d, n, es[0]) && Reaches(d, Next(n, es[0]), es[1..], n')
  }

  lemma {:induction false} ReachesThen(d: nat, n: Net, es: seq<Step>, n': Net, fs: seq<Step>, n'': Net)
    requires Reaches(d, n, es, n') && Reaches(d, n', fs, n'')
    ensures Reaches(d, n, es + fs, n'')
    decreases |es|
  {
    if es == [] {
      assert es + fs == fs;
    } else {
      ReachesThen(d, Next(n, es[0]), es[1..], n', fs, n'');
      assert (es + fs)[1..] == es[1..] + fs;
    }
  }

  lemma Two(d: nat, n: Net, e: Step, f: Step, n': Net)
    requires Enabled(d, n, e) && Enabled(d, Next(n, e), f) && Next(Next(n, e), f) == n'
    ensures Reaches(d, n, [e, f], n')
  {
    assert [e, f][1..] == [f] && [f][1..] == [];
    assert Reaches(d, n', [], n');
    assert Reaches(d, Next(n, e), [f], n');
  }

  const SLOW: nat := 50_000

  /** A moment of the slow run: both in service, the smaller side's messages still on their way. */
  function Slow(now: nat, hiSend: nat, loSend: nat, loHeard: nat, toHi: seq<nat>, toLo: seq<nat>): Net {
    Net(now, Live(Clock(120_000, hiSend, 0)), Live(Clock(loHeard + 120_000, loSend, loHeard)), None, toHi, toLo)
  }

  /** When every message takes as long as `SLOW`, the chooser's timer fires while the other side,
      chosen late and heard late, is in service. */
  lemma SlowStart(d: nat) returns (es: seq<Step>)
    requires SLOW <= d
    ensures Reaches(d, Net(0, Live(Started(0)), NotYet, Some(SLOW), [], []), es,
                    Slow(60_000, 80_000, 70_000, 50_000, [], [70_000, 90_000, 110_000]))
  {
    var a0 := Net(0, Live(Started(0)), NotYet, Some(SLOW), [], []);
    var a1 := Net(20_000, Live(Clock(120_000, 40_000, 0)), NotYet, Some(SLOW), [], [70_000]);
    var a2 := Net(40_000, Live(Clock(120_000, 60_000, 0)), NotYet, Some(SLOW), [], [70_000, 90_000]);
    var a3 := Slow(50_000, 60_000, 70_000, 50_000, [], [70_000, 90_000]);
    var a4 := Slow(60_000, 80_000, 70_000, 50_000, [], [70_000, 90_000, 110_000]);
    Two(d, a0, Advance(20_000), Beat(Hi, SLOW), a1);
    Two(d, a1, Advance(20_000), Beat(Hi, SLOW), a2);
    Two(d, a2, Advance(10_000), Choose, a3);
    Two(d, a3, Advance(10_000), Beat(Hi, SLOW), a4);
    ReachesThen(d, a0, [Advance(20_000), Beat(Hi, SLOW)], a1, [Advance(20_000), Beat(Hi, SLOW)], a2);
    es := [Advance(20_000), Beat(Hi, SLOW)] + [Advance(20_000), Beat(Hi, SLOW)];
    ReachesThen(d, a0, es, a2, [Advance(10_000), Choose], a3);
    es := es + [Advance(10_000), Choose];
    ReachesThen(d, a0, es, a3, [Advance(10_000), Beat(Hi, SLOW)], a4);
    es := es + [Advance(10_000), Beat(Hi, SLOW)];
  }

  lemma SlowMiddle(d: nat) returns (es: seq<Step>)
    requires SLOW <= d
    ensures Reaches(d, Slow(60_000, 80_000, 70_000, 50_000, [], [70_000, 90_000, 110_000]), es,
                    Slow(80_000, 80_000, 90_000, 70_000, [120_000], [90_000, 110_000]))
  {
    var a4 := Slow(60_000, 80_000, 70_000, 50_000, [], [70_000, 90_000, 110_000]);
    var a5 := Slow(70_000, 80_000, 90_000, 50_000, [120_000], [70_000, 90_000, 110_000]);
    var a6 := Slow(80_000, 80_000, 90_000, 70_000, [120_000], [90_000, 110_000]);
    assert [70_000, 90_000, 110_000][1..] == [90_000, 110_000];
    Two(d, a4, Advance(10_000), Beat(Lo, SLOW), a5);
    Two(d, a5, Deliver(Lo), Advance(10_000), a6);
    es := [Advance(10_000), Beat(Lo, SLOW)] + [Deliver(Lo), Advance(10_000)];
    ReachesThen(d, a4, [Advance(10_000), Beat(Lo, SLOW)], a5, [Deliver(Lo), Advance(10_000)], a6);
  }

  lemma SlowOn(d: nat) returns (es: seq<Step>)
    requires SLOW <= d
    ensures Reaches(d, Slow(80_000, 80_000, 90_000, 70_000, [120_000], [90_000, 110_000]), es,
                    Slow(90_000, 100_000, 110_000, 90_000, [120_000, 140_000], [110_000, 130_000]))
  {
    var a6 := Slow(80_000, 80_000, 90_000, 70_000, [120_000], [90_000, 110_000]);
    var a7 := Slow(90_000, 100_000, 90_000, 70_000, [120_000], [90_000, 110_000, 130_000]);
    var a8 := Slow(90_000, 100_000, 110_000, 90_000, [120_000, 140_000], [110_000, 130_000]);
    assert [90_000, 110_000, 130_000][1..] == [110_000, 130_000];
    Two(d, a6, Beat(Hi, SLOW), Advance(10_000), a7);
    Two(d, a7, Beat(Lo, SLOW), Deliver(Lo), a8);
    es := [Beat(Hi, SLOW), Advance(10_000)] + [Beat(Lo, SLOW), Deliver(Lo)];
    ReachesThen(d, a6, [Beat(Hi, SLOW), Advance(10_000)], a7, [Beat(Lo, SLOW), Deliver(Lo)], a8);
  }

  lemma SlowLate(d: nat) returns (es: seq<Step>)
    requires SLOW <= d
    ensures Reaches(d, Slow(90_000, 100_000, 110_000, 90_000, [120_000, 140_000], [110_000, 130_000]), es,
                    Slow(110_000, 120_000, 130_000, 90_000, [120_000, 140_000, 160_000], [110_000, 130_000, 150_000]))
  {
    var a8 := Slow(90_000, 100_000, 110_000, 90_000, [120_000, 140_000], [110_000, 130_000]);
    var a9 := Slow(100_000, 120_000, 110_000, 90_000, [120_000, 140_000], [110_000, 130_000, 150_000]);
    var b1 := Slow(110_000, 120_000, 130_000, 90_000, [120_000, 140_000, 160_000], [110_000, 130_000, 150_000]);
    Two(d, a8, Advance(10_000), Beat(Hi, SLOW), a9);
    Two(d, a9, Advance(10_000), Beat(Lo, SLOW), b1);
    es := [Advance(10_000), Beat(Hi, SLOW)] + [Advance(10_000), Beat(Lo, SLOW)];
    ReachesThen(d, a8, [Advance(10_000), Beat(Hi, SLOW)], a9, [Advance(10_000), Beat(Lo, SLOW)], b1);
  }

  lemma SlowEnd(d: nat) returns (es: seq<Step>, n: Net)
    requires SLOW <= d
    ensures Reaches(d, Slow(110_000, 120_000, 130_000, 90_000, [120_000, 140_000, 160_000],
                            [110_000, 130_000, 150_000]), es, n)
    ensures Wrongful(d, n, Hi)
  {
    var b1 := Slow(110_000, 120_000, 130_000, 90_000, [120_000, 140_000, 160_000], [110_000, 130_000, 150_000]);
    n := Slow(120_000, 120_000, 130_000, 110_000, [120_000, 140_000, 160_000], [130_000, 150_000]);
    assert [110_000, 130_000, 150_000][1..] == [130_000, 150_000];
    Two(d, b1, Deliver(Lo), Advance(10_000), n);
    es := [Deliver(Lo), Advance(10_000)];
  }

  /** When messages may take as long as `SLOW`, some run drops a live peer. */
  lemma SlowRun(d: nat)
    requires SLOW <= d
    ensures CanDropLivePeer(d)
  {
    var start := Net(0, Live(Started(0)), NotYet, Some(SLOW), [], []);
    var m1 := Slow(60_000, 80_000, 70_000, 50_000, [], [70_000, 90_000, 110_000]);
    var m2 := Slow(80_000, 80_000, 90_000, 70_000, [120_000], [90_000, 110_000]);
    var m3 := Slow(90_000, 100_000, 110_000, 90_000, [120_000, 140_000], [110_000, 130_000]);
    var m4 := Slow(110_000, 120_000, 130_000, 90_000, [120_000, 140_000, 160_000], [110_000, 130_000, 150_000]);
    var es1 := SlowStart(d);
    var es2 := SlowMiddle(d);
    var es3 := SlowOn(d);
    var es4 := SlowLate(d);
    var es5, n := SlowEnd(d);
    ReachesThen(d, start, es1, m1, es2, m2);
    ReachesThen(d, start, es1 + es2, m2, es3, m3);
    ReachesThen(d, start, es1 + es2 + es3, m3, es4, m4);
    ReachesThen(d, start, es1 + es2 + es3 + es4, m4, es5, n);
    assert Starts(d, start);
  }

  /** Some run of steps from a start gets to where one side drops the other, which is still there. */
  ghost predicate CanDropLivePeer(d: nat) {
    exists n, es, n', side :: Starts(d, n) && Reaches(d, n, es, n') && Wrongful(d, n', side)
  }

  lemma {:induction false} ReachesKeeps(d: nat, n: Net, es: seq<Step>, n': Net)
    requires HEARTBEAT_PERIOD_MS + 2 * d < INACTIVITY_TIMEOUT_MS
    requires TimeOk(d, n) && KeepsUp(d, n) && Reaches(d, n, es, n')
    ensures TimeOk(d, n') && KeepsUp(d, n')
    decreases |es|
  {
    if es != [] {
      StepTimeOk(d, n, es[0]);
      StepKeepsUp(d, n, es[0]);
      ReachesKeeps(d, Next(n, es[0]), es[1..], n');
    }
  }

  /** Two live peers can drop each other for inactivity if and only if the heartbeat period and two
      delays together reach the timeout: one delay for the choice, one for the first heartbeat. */
  lemma DropsIffSlow(d: nat)
    ensures CanDropLivePeer(d) <==> HEARTBEAT_PERIOD_MS + 2 * d >= INACTIVITY_TIMEOUT_MS
  {
    if HEARTBEAT_PERIOD_MS + 2 * d >= INACTIVITY_TIMEOUT_MS {
      SlowRun(d);
    } else if CanDropLivePeer(d) {
      var n, es, n', side :| Starts(d, n) && Reaches(d, n, es, n') && Wrongful(d, n', side);
      ReachesKeeps(d, n, es, n');
    }
  }
}
