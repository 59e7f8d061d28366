/** Two peers, any number of parallel connections between them, FIFO channels: the larger id picks
    one connection. A step system over both sides; runs are sequences of steps. */
module TwoPeer {
  import opened Options

  /** `Hi` is the peer with the larger id. */
  datatype Side = Hi | Lo

  /** `Payload` stands for data and heartbeats: what only a connection in service sends. */
  datatype Msg = Connect | ChooseConnection | Payload

  /** One end of a connection. `Asking(sent)` is the outgoing exchange, `Answering(replying)` the
      incoming one. */
  datatype End = Asking(sent: bool) | Answering(replying: bool) | Candidate | Active | Closed

  datatype Link = Link(hi: End, lo: End, toHi: seq<Msg>, toLo: seq<Msg>) {
    function At(side: Side): End { if side.Hi? then hi else lo }
    function Inbox(side: Side): seq<Msg> { if side.Hi? then toHi else toLo }
    function Put(side: Side, e: End): Link { if side.Hi? then this.(hi := e) else this.(lo := e) }
    function Send(from: Side, m: Msg): Link {
      if from.Hi? then this.(toLo := toLo + [m]) else this.(toHi := toHi + [m])
    }
    function Take(side: Side): Link
      requires Inbox(side) != []
    {
      if side.Hi? then this.(toHi := toHi[1..]) else this.(toLo := toLo[1..])
    }
  }

  /** `hiActive` and `loActive` are what each side's connection map holds as the active connection
      to the other. `chosen` and `gaveUp` are history: the connections on which the larger id
      sent `ChooseConnection` whole, and those of them it has ended since. */
  datatype Sys = Sys(links: map<nat, Link>, hiActive: Option<nat>, loActive: Option<nat>, chosen: seq<nat>,
      gaveUp: set<nat>) {
    function ActiveOf(side: Side): Option<nat> { if side.Hi? then hiActive else loActive }
    function SetActive(side: Side, a: Option<nat>): Sys {
      if side.Hi? then this.(hiActive := a) else this.(loActive := a)
    }
    function SetLink(c: nat, l: Link): Sys { this.(links := links[c := l]) }
  }

  const Start := Sys(map[], None, None, [], {})

  /** `WriteBreaks` is a write that goes out whole and yet fails, because the poll does not take the
      socket's new interest: the end that wrote is closed. */
  datatype Step =
    | Open(c: nat, initiator: Side)
    | Request(c: nat, side: Side)
    | Reply(c: nat, side: Side)
    | Receive(c: nat, side: Side)
    | Writable(c: nat, side: Side)
    | SendPayload(c: nat, side: Side)
    | WriteBreaks(c: nat, side: Side)
    | Drop(c: nat, side: Side)

  predicate Enabled(s: Sys, t: Step) {
    if t.Open? then t.c !in s.links
    else
      && t.c in s.links
      && var l := s.links[t.c];
         match t
         case Request(_, side) => l.At(side) == Asking(false)
         case Reply(_, side) => l.At(side) == Answering(true)
         case Receive(_, side) => l.At(side) != Closed && l.Inbox(side) != []
         case Writable(_, side) => l.At(side) == Candidate
         case SendPayload(_, side) => l.At(side) == Active
         case WriteBreaks(_, side) =>
           || l.At(side) == Asking(false)
           || l.At(side) == Answering(true)
           || (side.Hi? && l.hi == Candidate && s.hiActive.None?)
         case Drop(_, side) => l.At(side) != Closed
  }

  /** An end that terminates; one in service also clears the map's active connection. */
  function Close(s: Sys, c: nat, side: Side): Sys
    requires c in s.links
  {
    var l := s.links[c];
    var s' := s.SetLink(c, l.Put(side, Closed));
    if l.At(side) != Active then s'
    else if side.Hi? then s'.SetActive(Hi, None).(gaveUp := s.gaveUp + {c})
    else s'.SetActive(Lo, None)
  }

  /** A candidate that is done enters service and becomes the map's active connection, whatever was
      there before. */
  function Promote(s: Sys, c: nat, side: Side): Sys
    requires c in s.links
  {
    s.SetLink(c, s.links[c].Put(side, Active)).SetActive(side, Some(c))
  }

  function OnMessage(s: Sys, c: nat, side: Side, m: Msg): Sys
    requires c in s.links
  {
    match s.links[c].At(side)
    case Asking(_) => if m.Connect? then s.SetLink(c, s.links[c].Put(side, Candidate)) else Close(s, c, side)
    case Answering(_) => if m.Connect? then s.SetLink(c, s.links[c].Put(side, Answering(true))) else Close(s, c, side)
    case Candidate => if m.ChooseConnection? then Promote(s, c, side) else Close(s, c, side)
    case Active => s
    case Closed => s
  }

  /** The candidate's write: give way to a connection already in service; otherwise the larger id
      sends its choice and is done, the smaller goes on waiting to be chosen. */
  function OnWritable(s: Sys, c: nat, side: Side): Sys
    requires c in s.links
  {
    if s.ActiveOf(side).Some? then Close(s, c, side)
    else if side.Hi? then
      Promote(s.SetLink(c, s.links[c].Send(Hi, ChooseConnection)), c, Hi).(chosen := s.chosen + [c])
    else s
  }

  function Next(s: Sys, t: Step): Sys
    requires Enabled(s, t)
  {
    match t
    case Open(c, Hi) => s.SetLink(c, Link(Asking(false), Answering(false), [], []))
    case Open(c, Lo) => s.SetLink(c, Link(Answering(false), Asking(false), [], []))
    case Request(c, side) => Written(s, c, side)
    case Reply(c, side) => Written(s, c, side)
    case Receive(c, side) => OnMessage(s.SetLink(c, s.links[c].Take(side)), c, side, s.links[c].Inbox(side)[0])
    case Writable(c, side) => OnWritable(s, c, side)
    case SendPayload(c, side) => s.SetLink(c, s.links[c].Send(side, Payload))
    case WriteBreaks(c, side) => Close(Written(s, c, side), c, side)
    case Drop(c, side) => Close(s, c, side)
  }

  /** What one end sends next during the handshake: its introduction, or the larger id's choice. */
  function Written(s: Sys, c: nat, side: Side): Sys
    requires c in s.links
  {
    match s.links[c].At(side)
    case Asking(_) => s.SetLink(c, s.links[c].Put(side, Asking(true)).Send(side, Connect))
    case Answering(_) => s.SetLink(c, s.links[c].Put(side, Candidate).Send(side, Connect))
    case _ => OnWritable(s, c, side)
  }

  ghost predicate IsRun(ss: seq<Sys>, ts: seq<Step>) {
    && |ss| == |ts| + 1
    && ss[0] == Start
    && forall i :: 0 <= i < |ts| ==> Enabled(ss[i], ts[i]) && ss[i + 1] == Next(ss[i], ts[i])
  }

  // ----- What is in the channels -----

  /** How far a sender has got: 0 before its `Connect`, 1 before the choice, 2 in service. */
  function Advance(pos: nat, m: Msg): nat {
    match m
    case Connect => 1
    case ChooseConnection => 2
    case Payload => pos
  }

  predicate Accepts(pos: nat, m: Msg) {
    match m
    case Connect => pos == 0
    case ChooseConnection => pos == 1
    case Payload => pos == 2
  }

  /** `q` continues a conversation that has got to `pos`, and takes it to `end`. */
  predicate Fits(pos: nat, q: seq<Msg>, end: nat)
    decreases |q|
  {
    if q == [] then pos == end else Accepts(pos, q[0]) && Fits(Advance(pos, q[0]), q[1..], end)
  }

  lemma {:induction false} FitsAppend(pos: nat, q: seq<Msg>, end: nat, m: Msg)
    requires Fits(pos, q, end) && Accepts(end, m)
    ensures Fits(pos, q + [m], Advance(end, m))
    decreases |q|
  {
    if q == [] {
      assert ([] + [m])[1..] == [];
    } else {
      FitsAppend(Advance(pos, q[0]), q[1..], end, m);
      assert (q + [m])[1..] == q[1..] + [m];
    }
  }

  lemma {:induction false} FitsForward(pos: nat, q: seq<Msg>, end: nat)
    requires Fits(pos, q, end)
    ensures pos <= end
    decreases |q|
  {
    if q != [] { FitsForward(Advance(pos, q[0]), q[1..], end); }
  }

  function ReceivedBy(e: End): nat {
    match e
    case Asking(_) => 0
    case Answering(replying) => if replying then 1 else 0
    case Candidate => 1
    case Active => 2
    case Closed => 2
  }

  function SentBy(e: End): nat {
    match e
    case Asking(sent) => if sent then 1 else 0
    case Answering(_) => 0
    case Candidate => 1
    case Active => 2
    case Closed => 2
  }

  predicate OnlyConnect(q: seq<Msg>) {
    forall i :: 0 <= i < |q| ==> q[i] == Connect
  }

  predicate OnlyPayload(q: seq<Msg>) {
    forall i :: 0 <= i < |q| ==> q[i] == Payload
  }

  /** Towards the smaller id: the introduction, then the choice, then payload. */
  ghost predicate Downward(l: Link) {
    l.lo != Closed ==>
      exists end :: Fits(ReceivedBy(l.lo), l.toLo, end) && (l.hi != Closed ==> end == SentBy(l.hi))
  }

  /** Towards the larger id: the introduction, then nothing before the choice, then payload. */
  predicate Upward(l: Link) {
    match l.hi
    case Closed => true
    case Active => OnlyPayload(l.toHi)
    case Candidate => l.toHi == []
    case Answering(true) => l.toHi == []
    case _ => l.toHi == [] || l.toHi == [Connect]
  }

  /** If the larger id has had the other's introduction, or has it coming, it was sent. */
  predicate Introduced(l: Link) {
    l.hi != Closed && l.lo != Closed ==>
      (SentBy(l.lo) >= 1 <==> l.toHi == [Connect] || ReceivedBy(l.hi) >= 1)
  }

  /** One side asks; until it has, nothing comes back. */
  predicate OneAsks(l: Link) {
    && !(l.hi.Asking? && l.lo.Asking?)
    && (l.hi == Asking(false) ==> l.toHi == [])
    && (l.lo == Asking(false) ==> l.toLo == [])
  }

  ghost predicate LinkInv(l: Link, chosen: bool, gaveUp: bool) {
    && Downward(l) && Upward(l) && Introduced(l) && OneAsks(l)
    && (chosen <==> l.hi == Active || gaveUp)
    && (gaveUp ==> l.hi == Closed)
    && (chosen && l.lo != Closed ==> SentBy(l.lo) >= 1)
    && (!chosen ==> OnlyConnect(l.toLo) && OnlyConnect(l.toHi) && l.lo != Active)
  }

  ghost predicate Inv(s: Sys) {
    && (forall c :: c in s.links ==> LinkInv(s.links[c], c in s.chosen, c in s.gaveUp))
    && (forall c :: c in s.links && s.links[c].hi == Active <==> s.hiActive == Some(c))
    && (forall i :: 0 <= i < |s.chosen| ==> s.chosen[i] in s.links)
    && (forall i, j :: 0 <= i < j < |s.chosen| ==> s.chosen[i] != s.chosen[j])
    && (forall c :: c in s.gaveUp ==> c in s.links)
    && (s.loActive.Some? ==> s.loActive.value in s.links && s.links[s.loActive.value].lo == Active)
  }

  // ----- Every step keeps it -----

  /** A step that touches one link and neither side's choice. */
  lemma OneLink(s: Sys, s': Sys, c: nat, l: Link)
    requires Inv(s) && s' == s.SetLink(c, l)
    requires LinkInv(l, c in s.chosen, c in s.gaveUp)
    requires l.hi == Active <==> c in s.links && s.links[c].hi == Active
    requires c in s.links && s.links[c].lo == Active ==> l.lo == Active
    ensures Inv(s')
  {
  }

  lemma CloseKeeps(s: Sys, c: nat, side: Side)
    requires Inv(s) && c in s.links && s.links[c].At(side) != Closed
    ensures Inv(Close(s, c, side))
  {
    var s' := Close(s, c, side);
    var l := s.links[c];
    var l' := s'.links[c];
    assert LinkInv(l, c in s.chosen, c in s.gaveUp);
    if side.Hi? && l.lo != Closed {
      var end :| Fits(ReceivedBy(l.lo), l.toLo, end);
      assert Downward(l');
    }
    assert LinkInv(l', c in s'.chosen, c in s'.gaveUp);
  }

  /** An introduction leaves: with the request, or with the reply. */
  lemma IntroduceKeeps(l: Link, side: Side, gaveUp: bool)
    requires LinkInv(l, false, gaveUp) && (l.At(side) == Asking(false) || l.At(side) == Answering(true))
    ensures var e := if l.At(side).Asking? then Asking(true) else Candidate;
            LinkInv(l.Put(side, e).Send(side, Connect), false, gaveUp)
  {
    var e := if l.At(side).Asking? then Asking(true) else Candidate;
    var l' := l.Put(side, e).Send(side, Connect);
    if l.lo != Closed && l.hi != Closed { FitsForward(ReceivedBy(l.lo), l.toLo, SentBy(l.hi)); }
    if side.Hi? {
      if l.lo != Closed { FitsAppend(ReceivedBy(l.lo), l.toLo, 0, Connect); }
    } else {
      var end :| Fits(ReceivedBy(l.lo), l.toLo, end) && (l.hi != Closed ==> end == SentBy(l.hi));
      assert Fits(ReceivedBy(l'.lo), l'.toLo, end);
    }
  }

  lemma NotIntroduced(l: Link, side: Side, chosen: bool, gaveUp: bool)
    requires LinkInv(l, chosen, gaveUp) && (l.At(side) == Asking(false) || l.At(side) == Answering(true))
    ensures !chosen
  {
  }

  /** The larger id's choice leaves and the candidate enters service. */
  lemma ChooseKeeps(s: Sys, c: nat)
    requires Inv(s) && c in s.links && s.links[c].hi == Candidate && s.hiActive.None?
    ensures Inv(OnWritable(s, c, Hi))
  {
    var s' := OnWritable(s, c, Hi);
    ChosenLink(s.links[c], c in s.chosen, c in s.gaveUp);
    assert c in s'.chosen by { assert s'.chosen[|s.chosen|] == c; }
    forall d | d in s'.links ensures LinkInv(s'.links[d], d in s'.chosen, d in s'.gaveUp) {
      assert d != c ==> (d in s'.chosen <==> d in s.chosen);
    }
  }

  lemma ChosenLink(l: Link, chosen: bool, gaveUp: bool)
    requires LinkInv(l, chosen, gaveUp) && l.hi == Candidate
    ensures !chosen && !gaveUp && LinkInv(l.Send(Hi, ChooseConnection).Put(Hi, Active), true, false)
  {
    if l.lo != Closed { FitsAppend(ReceivedBy(l.lo), l.toLo, 1, ChooseConnection); }
  }

  lemma PayloadKeeps(l: Link, side: Side, chosen: bool, gaveUp: bool)
    requires LinkInv(l, chosen, gaveUp) && l.At(side) == Active
    ensures LinkInv(l.Send(side, Payload), chosen, gaveUp)
  {
    var l' := l.Send(side, Payload);
    if side.Hi? {
      if l.lo != Closed { FitsAppend(ReceivedBy(l.lo), l.toLo, 2, Payload); }
    } else {
      assert Downward(l');
    }
  }

  lemma LoLinkKeeps(s: Sys, c: nat)
    requires c in s.links && LinkInv(s.links[c], c in s.chosen, c in s.gaveUp)
    requires s.links[c].lo != Closed && s.links[c].toLo != []
    ensures var l, l' := s.links[c], Next(s, Receive(c, Lo)).links[c];
            && LinkInv(l', c in s.chosen, c in s.gaveUp)
            && l'.lo != Closed && (l.lo != Active && l'.lo == Active <==> l.toLo[0] == ChooseConnection)
  {
    var l := s.links[c];
    var l' := Next(s, Receive(c, Lo)).links[c];
    var end :| Fits(ReceivedBy(l.lo), l.toLo, end) && (l.hi != Closed ==> end == SentBy(l.hi));
    assert Fits(ReceivedBy(l'.lo), l'.toLo, end);
    assert l.toLo[0] in l.toLo;
  }

  /** Reading on the smaller side: each message finds the end in the state that expects it. */
  lemma LoReadKeeps(s: Sys, c: nat)
    requires Inv(s) && c in s.links && s.links[c].lo != Closed && s.links[c].toLo != []
    ensures Inv(Next(s, Receive(c, Lo)))
    ensures var l, l' := s.links[c], Next(s, Receive(c, Lo)).links[c];
            l'.lo != Closed && (l.lo != Active && l'.lo == Active <==> l.toLo[0] == ChooseConnection)
  {
    assert LinkInv(s.links[c], c in s.chosen, c in s.gaveUp);
    LoLinkKeeps(s, c);
  }

  lemma HiReadKeeps(s: Sys, c: nat)
    requires Inv(s) && c in s.links && s.links[c].hi != Closed && s.links[c].toHi != []
    ensures Inv(Next(s, Receive(c, Hi)))
    ensures Next(s, Receive(c, Hi)).links[c].hi != Closed
  {
    var l := s.links[c];
    var s' := Next(s, Receive(c, Hi));
    var l' := s'.links[c];
    assert LinkInv(l, c in s.chosen, c in s.gaveUp);
    assert l.hi == Active ==> l.toHi[0] == Payload && OnlyPayload(l.toHi[1..]);
    assert l.toHi == [Connect] ==> l.toHi[1..] == [];
    if l.lo != Closed {
      var end :| Fits(ReceivedBy(l.lo), l.toLo, end) && end == SentBy(l.hi);
      assert SentBy(l'.hi) == SentBy(l.hi) || l.hi == Asking(false);
    }
    assert LinkInv(l', c in s.chosen, c in s.gaveUp);
  }

  lemma OpenKeeps(s: Sys, c: nat, side: Side)
    requires Inv(s) && c !in s.links
    ensures Inv(Next(s, Open(c, side)))
  {
    var s' := Next(s, Open(c, side));
    var l := s'.links[c];
    assert Fits(ReceivedBy(l.lo), l.toLo, 0) && Downward(l);
    assert c !in s.chosen && c !in s.gaveUp;
    OneLink(s, s', c, l);
  }

  lemma WrittenKeeps(s: Sys, c: nat, side: Side)
    requires Inv(s) && c in s.links
    requires var e := s.links[c].At(side);
             e == Asking(false) || e == Answering(true) || (side.Hi? && e == Candidate && s.hiActive.None?)
    ensures Inv(Written(s, c, side)) && Written(s, c, side).links[c].At(side) != Closed
  {
    if s.links[c].At(side) == Candidate {
      ChooseKeeps(s, c);
    } else {
      NotIntroduced(s.links[c], side, c in s.chosen, c in s.gaveUp);
      IntroduceKeeps(s.links[c], side, c in s.gaveUp);
      OneLink(s, Written(s, c, side), c, Written(s, c, side).links[c]);
    }
  }

  lemma StepKeeps(s: Sys, t: Step)
    requires Inv(s) && Enabled(s, t)
    ensures Inv(Next(s, t))
  {
    match t {
      case Open(c, side) => OpenKeeps(s, c, side);
      case Request(c, side) => WrittenKeeps(s, c, side);
      case Reply(c, side) => WrittenKeeps(s, c, side);
      case Receive(c, side) =>
        if side.Hi? { HiReadKeeps(s, c); } else { LoReadKeeps(s, c); }
      case Writable(c, side) =>
        if s.ActiveOf(side).Some? { CloseKeeps(s, c, side); }
        else if side.Hi? { ChooseKeeps(s, c); }
      case SendPayload(c, side) =>
        PayloadKeeps(s.links[c], side, c in s.chosen, c in s.gaveUp);
        OneLink(s, Next(s, t), c, Next(s, t).links[c]);
      case WriteBreaks(c, side) =>
        WrittenKeeps(s, c, side);
        CloseKeeps(Written(s, c, side), c, side);
      case Drop(c, side) =>
        CloseKeeps(s, c, side);
    }
  }

  lemma {:induction false} RunKeeps(ss: seq<Sys>, ts: seq<Step>, n: nat)
    requires IsRun(ss, ts) && n < |ss|
    ensures Inv(ss[n])
    decreases n
  {
    if n > 0 {
      RunKeeps(ss, ts, n - 1);
      StepKeeps(ss[n - 1], ts[n - 1]);
    }
  }

  // ----- Agreement -----

  lemma ChosenTwice(s: Sys, c: nat, d: nat)
    requires Inv(s) && s.gaveUp == {} && c in s.chosen && d in s.chosen
    ensures c == d
  {
    assert LinkInv(s.links[c], c in s.chosen, c in s.gaveUp);
    assert LinkInv(s.links[d], d in s.chosen, d in s.gaveUp);
  }

  /** Until the larger id gives its connection up, it has chosen at most once, and whatever the
      smaller id holds in service is that connection. */
  lemma Agreement(ss: seq<Sys>, ts: seq<Step>, n: nat)
    requires IsRun(ss, ts) && n < |ss| && ss[n].gaveUp == {}
    ensures |ss[n].chosen| <= 1
    ensures ss[n].chosen != [] ==> ss[n].hiActive == Some(ss[n].chosen[0])
    ensures forall c :: c in ss[n].links && ss[n].links[c].lo == Active ==> ss[n].chosen == [c]
    ensures ss[n].loActive.Some? ==> ss[n].loActive == ss[n].hiActive
  {
    RunKeeps(ss, ts, n);
    var s := ss[n];
    forall c | c in s.chosen ensures s.hiActive == Some(c) {
      assert c in s.links && LinkInv(s.links[c], c in s.chosen, c in s.gaveUp);
    }
    if |s.chosen| >= 2 { ChosenTwice(s, s.chosen[0], s.chosen[1]); }
    forall c | c in s.links && s.links[c].lo == Active ensures s.chosen == [c] {
      assert LinkInv(s.links[c], c in s.chosen, c in s.gaveUp);
    }
  }

  /** In every run, given up or not: a connection that the smaller id has in service was chosen, and is
      the one the larger id has in service if and only if the larger id has not given it up. */
  lemma ActiveIsChosen(ss: seq<Sys>, ts: seq<Step>, n: nat, c: nat)
    requires IsRun(ss, ts) && n < |ss| && c in ss[n].links && ss[n].links[c].lo == Active
    ensures c in ss[n].chosen
    ensures ss[n].hiActive == Some(c) <==> c !in ss[n].gaveUp
  {
    RunKeeps(ss, ts, n);
    assert LinkInv(ss[n].links[c], c in ss[n].chosen, c in ss[n].gaveUp);
  }

  /** The connections the smaller id has in service. */
  function InServiceAtLo(s: Sys): set<nat> {
    set c | c in s.links && s.links[c].lo == Active
  }

  /** The two sides agree, in that whatever the smaller id has in service is what the larger id has, if
      and only if the larger id has given up nothing that the smaller id still has in service. */
  lemma AgreementExactly(ss: seq<Sys>, ts: seq<Step>, n: nat)
    requires IsRun(ss, ts) && n < |ss|
    ensures (forall c :: c in InServiceAtLo(ss[n]) ==> ss[n].hiActive == Some(c))
            <==> InServiceAtLo(ss[n]) !! ss[n].gaveUp
  {
    forall c | c in InServiceAtLo(ss[n]) ensures ss[n].hiActive == Some(c) <==> c !in ss[n].gaveUp {
      ActiveIsChosen(ss, ts, n, c);
    }
  }

  /** The smaller id's candidate reads a choice. */
  predicate HearsChoice(s: Sys, t: Step) {
    && t.Receive? && t.side.Lo? && t.c in s.links
    && s.links[t.c].lo == Candidate && s.links[t.c].toLo != [] && s.links[t.c].toLo[0] == ChooseConnection
  }

  /** What the smaller id has in service grows by hearing a choice and shrinks by dropping, and in no
      other way. */
  lemma InServiceStep(s: Sys, t: Step, d: nat)
    requires Enabled(s, t)
    ensures d in InServiceAtLo(Next(s, t)) <==>
            (d in InServiceAtLo(s) && t != Drop(d, Lo)) || (HearsChoice(s, t) && d == t.c)
  {
    var s' := Next(s, t);
    if d != t.c {
      assert d in s.links <==> d in s'.links;
      assert d in s.links ==> s'.links[d] == s.links[d];
    } else {
      OwnEnd(s, t);
    }
  }

  lemma OwnEnd(s: Sys, t: Step)
    requires Enabled(s, t)
    ensures t.c in InServiceAtLo(Next(s, t)) <==>
            (t.c in InServiceAtLo(s) && t != Drop(t.c, Lo)) || HearsChoice(s, t)
  {
  }

  ghost predicate TwoInService(s: Sys) {
    exists c, d :: c in InServiceAtLo(s) && d in InServiceAtLo(s) && c != d
  }

  /** The smaller id comes to have two connections in service exactly by hearing a choice on one while
      it has another. */
  lemma SecondInService(s: Sys, t: Step)
    requires Enabled(s, t) && !TwoInService(s)
    ensures TwoInService(Next(s, t)) <==> HearsChoice(s, t) && InServiceAtLo(s) != {}
  {
    forall d ensures d in InServiceAtLo(Next(s, t)) <==>
                     (d in InServiceAtLo(s) && t != Drop(d, Lo)) || (HearsChoice(s, t) && d == t.c) {
      InServiceStep(s, t, d);
    }
    if HearsChoice(s, t) && InServiceAtLo(s) != {} {
      var d :| d in InServiceAtLo(s);
      assert t.c in InServiceAtLo(Next(s, t)) && d in InServiceAtLo(Next(s, t)) && d != t.c;
    }
  }

  /** As long as it has never had two, its map's active connection is the one it has. */
  lemma {:induction false} MapIsRight(ss: seq<Sys>, ts: seq<Step>, n: nat)
    requires IsRun(ss, ts) && n < |ss| && forall i :: 0 <= i <= n ==> !TwoInService(ss[i])
    ensures InServiceAtLo(ss[n]) == if ss[n].loActive.Some? then {ss[n].loActive.value} else {}
    decreases n
  {
    if n > 0 {
      var s, t := ss[n - 1], ts[n - 1];
      MapIsRight(ss, ts, n - 1);
      assert !TwoInService(s) && !TwoInService(ss[n]);
      OneStays(s, t);
    }
  }

  lemma OneStays(s: Sys, t: Step)
    requires Enabled(s, t) && InServiceAtLo(s) == if s.loActive.Some? then {s.loActive.value} else {}
    requires !TwoInService(Next(s, t))
    ensures var s' := Next(s, t); InServiceAtLo(s') == if s'.loActive.Some? then {s'.loActive.value} else {}
  {
    var s' := Next(s, t);
    forall d ensures d in InServiceAtLo(s') <==>
                     (d in InServiceAtLo(s) && t != Drop(d, Lo)) || (HearsChoice(s, t) && d == t.c) {
      InServiceStep(s, t, d);
    }
    if HearsChoice(s, t) {
      assert s'.loActive == Some(t.c) && t.c in InServiceAtLo(s');
      forall d | d in InServiceAtLo(s') ensures d == t.c { }
    } else if t.Drop? && t.side.Lo? && s.links[t.c].lo == Active {
      assert t.c in InServiceAtLo(s);
      assert s'.loActive.None?;
    } else {
      assert s'.loActive == s.loActive;
    }
  }

  /** So it first comes to have two exactly when it hears a choice while its map already names a
      connection: the look at the map that the read path leaves out. */
  lemma FirstSecond(ss: seq<Sys>, ts: seq<Step>, n: nat)
    requires IsRun(ss, ts) && n < |ts| && forall i :: 0 <= i <= n ==> !TwoInService(ss[i])
    ensures TwoInService(ss[n + 1]) <==> HearsChoice(ss[n], ts[n]) && ss[n].loActive.Some?
  {
    MapIsRight(ss, ts, n);
    SecondInService(ss[n], ts[n]);
  }

  /** The smaller id's candidate does not look at its map before it accepts a choice. It need not:
      a choice that arrives while another connection is in service finds that one given up by the
      larger id. So without giving up, a choice never arrives while a connection is in service. */
  lemma SecondChoice(ss: seq<Sys>, ts: seq<Step>, n: nat, c: nat, d: nat)
    requires IsRun(ss, ts) && n < |ss| && c in ss[n].links && d in ss[n].links && c != d
    requires ss[n].links[c].lo == Candidate && ss[n].links[c].toLo != [] && ss[n].links[c].toLo[0] == ChooseConnection
    requires ss[n].links[d].lo == Active
    ensures c in ss[n].chosen && d in ss[n].chosen
    ensures c in ss[n].gaveUp || d in ss[n].gaveUp
  {
    RunKeeps(ss, ts, n);
    var s := ss[n];
    assert LinkInv(s.links[c], c in s.chosen, c in s.gaveUp);
    assert LinkInv(s.links[d], d in s.chosen, d in s.gaveUp);
    assert ChooseConnection in s.links[c].toLo;
  }

  /** So a candidate of the smaller id that reads a choice finds no connection in service, as long as
      the larger id has given none up. */
  lemma ChoiceFindsNothingActive(ss: seq<Sys>, ts: seq<Step>, n: nat, c: nat)
    requires IsRun(ss, ts) && n < |ts| && ss[n].gaveUp == {} && ts[n] == Receive(c, Lo)
    requires ss[n].links[c].lo == Candidate && ss[n].links[c].toLo[0] == ChooseConnection
    ensures ss[n].loActive.None?
  {
    RunKeeps(ss, ts, n);
    if ss[n].loActive.Some? {
      SecondChoice(ss, ts, n, c, ss[n].loActive.value);
    }
  }

  // ----- Nothing on a discarded connection -----

  lemma {:induction false} PayloadBehindChoice(pos: nat, q: seq<Msg>, end: nat, i: nat)
    requires Fits(pos, q, end) && pos < 2 && i < |q| && q[i] == Payload
    ensures exists j :: 0 <= j < i && q[j] == ChooseConnection
    decreases |q|
  {
    if q[0] != ChooseConnection {
      PayloadBehindChoice(Advance(pos, q[0]), q[1..], end, i - 1);
      var j :| 0 <= j < i - 1 && q[1..][j] == ChooseConnection;
      assert q[j + 1] == ChooseConnection;
    }
  }

  /** In every run payload travels only on a chosen connection, behind its choice: no candidate ever
      finds any at the head of its input, on either side. */
  lemma PayloadOnlyOnChosen(ss: seq<Sys>, ts: seq<Step>, n: nat, c: nat)
    requires IsRun(ss, ts) && n < |ss| && c in ss[n].links
    ensures var l := ss[n].links[c];
            && (Payload in l.toLo || Payload in l.toHi ==> c in ss[n].chosen)
            && (l.hi == Candidate ==> l.toHi == [])
            && (l.lo == Candidate && l.toLo != [] ==> l.toLo[0] == ChooseConnection)
            && (l.lo != Active && l.lo != Closed ==>
                  forall i :: 0 <= i < |l.toLo| && l.toLo[i] == Payload ==>
                    exists j :: 0 <= j < i && l.toLo[j] == ChooseConnection)
  {
    RunKeeps(ss, ts, n);
    var l := ss[n].links[c];
    assert LinkInv(l, c in ss[n].chosen, c in ss[n].gaveUp);
    if l.lo != Active && l.lo != Closed {
      var end :| Fits(ReceivedBy(l.lo), l.toLo, end);
      forall i | 0 <= i < |l.toLo| && l.toLo[i] == Payload
        ensures exists j :: 0 <= j < i && l.toLo[j] == ChooseConnection
      {
        PayloadBehindChoice(ReceivedBy(l.lo), l.toLo, end, i);
      }
    }
  }

  /** No end is ever closed because of what it read: every message finds the state that expects it. */
  lemma NothingUnexpected(ss: seq<Sys>, ts: seq<Step>, n: nat)
    requires IsRun(ss, ts) && n < |ts| && ts[n].Receive?
    ensures ss[n + 1].links[ts[n].c].At(ts[n].side) != Closed
  {
    RunKeeps(ss, ts, n);
    if ts[n].side.Hi? { HiReadKeeps(ss[n], ts[n].c); } else { LoReadKeeps(ss[n], ts[n].c); }
  }

  // ----- After giving up, agreement can be lost -----

  ghost predicate Reaches(s: Sys, ts: seq<Step>, s': Sys)
    decreases |ts|
  {
    if ts == [] then s == s' else Enabled(s, ts[0]) && Reaches(Next(s, ts[0]), ts[1..], s')
  }

  /** A handshake on `c` that leaves both ends candidates. */
  function Handshake(c: nat): seq<Step> {
    [Open(c, Hi), Request(c, Hi), Receive(c, Lo), Reply(c, Lo), Receive(c, Hi)]
  }

  lemma HandshakeReaches(s: Sys, c: nat)
    requires c !in s.links
    ensures Reaches(s, Handshake(c), s.SetLink(c, Link(Candidate, Candidate, [], [])))
  {
    var l1 := Link(Asking(false), Answering(false), [], []);
    var l2 := Link(Asking(true), Answering(false), [], [Connect]);
    var l5 := Link(Candidate, Candidate, [], []);
    var s1, s2, s5 := s.SetLink(c, l1), s.SetLink(c, l2), s.SetLink(c, l5);
    var rest := [Receive(c, Lo), Reply(c, Lo), Receive(c, Hi)];
    AnswerReaches(s2, c);
    assert s2.links[c := l5] == s5.links && s1.links[c := l2] == s2.links && l1.toLo + [Connect] == [Connect];
    OneStep(s1, Request(c, Hi), s2, rest, s5);
    OneStep(s, Open(c, Hi), s1, [Request(c, Hi)] + rest, s5);
    assert Handshake(c) == [Open(c, Hi)] + ([Request(c, Hi)] + rest);
  }

  lemma AnswerReaches(s: Sys, c: nat)
    requires c in s.links && s.links[c] == Link(Asking(true), Answering(false), [], [Connect])
    ensures Reaches(s, [Receive(c, Lo), Reply(c, Lo), Receive(c, Hi)], s.SetLink(c, Link(Candidate, Candidate, [], [])))
  {
    var l3 := Link(Asking(true), Answering(true), [], []);
    var l4 := Link(Asking(true), Candidate, [Connect], []);
    var l5 := Link(Candidate, Candidate, [], []);
    var s3, s4, s5 := s.SetLink(c, l3), s.SetLink(c, l4), s.SetLink(c, l5);
    assert l4.toHi[1..] == [] && s4.links[c := l5] == s5.links;
    OneStep(s4, Receive(c, Hi), s5, [], s5);
    assert l3.toHi + [Connect] == [Connect] && s3.links[c := l4] == s4.links;
    OneStep(s3, Reply(c, Lo), s4, [Receive(c, Hi)], s5);
    OneStep(s, Receive(c, Lo), s3, [Reply(c, Lo), Receive(c, Hi)], s5);
    assert [Receive(c, Lo), Reply(c, Lo), Receive(c, Hi)] == [Receive(c, Lo)] + [Reply(c, Lo), Receive(c, Hi)];
  }

  lemma OneStep(s: Sys, t: Step, s': Sys, ts: seq<Step>, s'': Sys)
    requires Enabled(s, t) && Next(s, t) == s' && Reaches(s', ts, s'')
    ensures Reaches(s, [t] + ts, s'')
  {
    assert ([t] + ts)[1..] == ts;
  }

  lemma {:induction false} ReachesThen(s: Sys, ts: seq<Step>, s': Sys, us: seq<Step>, s'': Sys)
    requires Reaches(s, ts, s') && Reaches(s', us, s'')
    ensures Reaches(s, ts + us, s'')
    decreases |ts|
  {
    if ts == [] {
      assert ts + us == us;
    } else {
      ReachesThen(Next(s, ts[0]), ts[1..], s', us, s'');
      assert (ts + us)[1..] == ts[1..] + us;
    }
  }

  /** The smaller id can end up with two connections in service, its map naming the newer, once the
      larger id has given one up: the condition in `Agreement` cannot be dropped. */
  lemma DisagreementAfterGivingUp() returns (ts: seq<Step>, s: Sys)
    ensures Reaches(Start, ts, s)
    ensures 0 in s.links && 1 in s.links && s.links[0].lo == Active && s.links[1].lo == Active
    ensures s.loActive == Some(1) && s.gaveUp == {0} && s.chosen == [0, 1]
  {
    var both := Link(Candidate, Candidate, [], []);
    var s1 := Start.SetLink(0, both);
    var s2 := s1.SetLink(1, both);
    HandshakeReaches(Start, 0);
    HandshakeReaches(s1, 1);
    ReachesThen(Start, Handshake(0), s1, Handshake(1), s2);
    var us := [Writable(0, Hi), Receive(0, Lo), Drop(0, Hi), Writable(1, Hi), Receive(1, Lo)];
    s := AfterGivingUp(s2, us);
    ts := Handshake(0) + Handshake(1) + us;
    ReachesThen(Start, Handshake(0) + Handshake(1), s2, us, s);
  }

  /** Nor need the larger id ever have had a connection in service: its choice goes out whole, the write
      fails all the same, and the smaller id, which hears the choice, is alone in service. */
  lemma ChoiceThatBreaks() returns (ts: seq<Step>, s: Sys)
    ensures Reaches(Start, ts, s) && forall i :: 0 <= i < |ts| ==> !ts[i].Drop?
    ensures s.loActive == Some(0) && s.hiActive.None? && s.chosen == [0] && s.gaveUp == {0}
  {
    HandshakeReaches(Start, 0);
    ts, s := BreaksAfter(Handshake(0));
  }

  lemma BreaksAfter(hs: seq<Step>) returns (ts: seq<Step>, s: Sys)
    requires Reaches(Start, hs, Start.SetLink(0, Link(Candidate, Candidate, [], [])))
    requires forall i :: 0 <= i < |hs| ==> !hs[i].Drop?
    ensures Reaches(Start, ts, s) && forall i :: 0 <= i < |ts| ==> !ts[i].Drop?
    ensures s.loActive == Some(0) && s.hiActive.None? && s.chosen == [0] && s.gaveUp == {0}
  {
    var s1 := Start.SetLink(0, Link(Candidate, Candidate, [], []));
    var us := [WriteBreaks(0, Hi), Receive(0, Lo)];
    ts := hs + us;
    s := BreakThenHeard(s1);
    ReachesThen(Start, hs, s1, us, s);
  }

  lemma BreakThenHeard(s1: Sys) returns (s: Sys)
    requires s1 == Sys(map[0 := Link(Candidate, Candidate, [], [])], None, None, [], {})
    ensures Reaches(s1, [WriteBreaks(0, Hi), Receive(0, Lo)], s)
    ensures s.loActive == Some(0) && s.hiActive.None? && s.chosen == [0] && s.gaveUp == {0}
  {
    var s2 := Sys(map[0 := Link(Closed, Candidate, [], [ChooseConnection])], None, None, [0], {0});
    s := Sys(map[0 := Link(Closed, Active, [], [])], None, Some(0), [0], {0});
    BreakReaches(s1, s2);
    BrokenIsHeard(s2, s);
    OneStep(s1, WriteBreaks(0, Hi), s2, [Receive(0, Lo)], s);
    assert [WriteBreaks(0, Hi), Receive(0, Lo)] == [WriteBreaks(0, Hi)] + [Receive(0, Lo)];
  }

  lemma BreakReaches(s1: Sys, s2: Sys)
    requires s1 == Sys(map[0 := Link(Candidate, Candidate, [], [])], None, None, [], {})
    requires s2 == Sys(map[0 := Link(Closed, Candidate, [], [ChooseConnection])], None, None, [0], {0})
    ensures Enabled(s1, WriteBreaks(0, Hi)) && Next(s1, WriteBreaks(0, Hi)) == s2
  {
    var w := Written(s1, 0, Hi);
    assert [] + [ChooseConnection] == [ChooseConnection] && [] + [0] == [0] && {} + {0} == {0};
    assert w == Sys(map[0 := Link(Active, Candidate, [], [ChooseConnection])], Some(0), None, [0], {});
  }

  lemma BrokenIsHeard(s2: Sys, s: Sys)
    requires s2 == Sys(map[0 := Link(Closed, Candidate, [], [ChooseConnection])], None, None, [0], {0})
    requires s == Sys(map[0 := Link(Closed, Active, [], [])], None, Some(0), [0], {0})
    ensures Reaches(s2, [Receive(0, Lo)], s)
  {
    assert s2.links[0].Take(Lo) == Link(Closed, Candidate, [], []);
    OneStep(s2, Receive(0, Lo), s, [], s);
    assert [Receive(0, Lo)] + [] == [Receive(0, Lo)];
  }

  /** Choosing and being chosen, on a connection whose ends are both candidates. */
  lemma ChoiceReaches(s: Sys, c: nat)
    requires c in s.links && s.links[c] == Link(Candidate, Candidate, [], []) && s.hiActive.None?
    ensures Reaches(s, [Writable(c, Hi), Receive(c, Lo)],
                    Sys(s.links[c := Link(Active, Active, [], [])], Some(c), Some(c), s.chosen + [c], s.gaveUp))
  {
    var l1, l2 := Link(Active, Candidate, [], [ChooseConnection]), Link(Active, Active, [], []);
    var s1 := Sys(s.links[c := l1], Some(c), s.loActive, s.chosen + [c], s.gaveUp);
    var s2 := Sys(s.links[c := l2], Some(c), Some(c), s.chosen + [c], s.gaveUp);
    var sent := s.links[c].Send(Hi, ChooseConnection);
    assert sent == Link(Candidate, Candidate, [], [ChooseConnection]);
    assert s.links[c := sent][c := l1] == s1.links;
    HeardReaches(s1, c);
    assert s1.links[c := l2] == s2.links;
    OneStep(s, Writable(c, Hi), s1, [Receive(c, Lo)], s2);
    assert [Writable(c, Hi), Receive(c, Lo)] == [Writable(c, Hi)] + [Receive(c, Lo)];
  }

  lemma HeardReaches(s: Sys, c: nat)
    requires c in s.links && s.links[c] == Link(Active, Candidate, [], [ChooseConnection])
    ensures Reaches(s, [Receive(c, Lo)], s.SetLink(c, Link(Active, Active, [], [])).SetActive(Lo, Some(c)))
  {
    var l1, l2 := Link(Active, Candidate, [], []), Link(Active, Active, [], []);
    assert s.links[c].Take(Lo) == l1;
    assert s.links[c := l1][c := l2] == s.links[c := l2];
    OneStep(s, Receive(c, Lo), s.SetLink(c, l2).SetActive(Lo, Some(c)), [], s.SetLink(c, l2).SetActive(Lo, Some(c)));
  }

  lemma AfterGivingUp(s0: Sys, us: seq<Step>) returns (s: Sys)
    requires s0.links == map[0 := Link(Candidate, Candidate, [], []), 1 := Link(Candidate, Candidate, [], [])]
    requires s0.hiActive.None? && s0.loActive.None? && s0.chosen == [] && s0.gaveUp == {}
    requires us == [Writable(0, Hi), Receive(0, Lo), Drop(0, Hi), Writable(1, Hi), Receive(1, Lo)]
    ensures Reaches(s0, us, s)
    ensures s.links == map[0 := Link(Closed, Active, [], []), 1 := Link(Active, Active, [], [])]
    ensures s.loActive == Some(1) && s.gaveUp == {0} && s.chosen == [0, 1]
  {
    var s2 := Sys(s0.links[0 := Link(Active, Active, [], [])], Some(0), Some(0), [] + [0], {});
    ChoiceReaches(s0, 0);
    s := ThenTheOther(s2);
    ReachesThen(s0, us[..2], s2, us[2..], s);
    assert us == us[..2] + us[2..];
  }

  lemma ThenTheOther(s2: Sys) returns (s: Sys)
    requires s2.links == map[0 := Link(Active, Active, [], []), 1 := Link(Candidate, Candidate, [], [])]
    requires s2.hiActive == Some(0) && s2.loActive == Some(0) && s2.chosen == [0] && s2.gaveUp == {}
    ensures Reaches(s2, [Drop(0, Hi), Writable(1, Hi), Receive(1, Lo)], s)
    ensures s.links == map[0 := Link(Closed, Active, [], []), 1 := Link(Active, Active, [], [])]
    ensures s.loActive == Some(1) && s.gaveUp == {0} && s.chosen == [0, 1]
  {
    var s3 := Sys(s2.links[0 := Link(Closed, Active, [], [])], None, Some(0), [0], {} + {0});
    s := Sys(s3.links[1 := Link(Active, Active, [], [])], Some(1), Some(1), [0] + [1], {} + {0});
    ChoiceReaches(s3, 1);
    OneStep(s2, Drop(0, Hi), s3, [Writable(1, Hi), Receive(1, Lo)], s);
    assert [Drop(0, Hi), Writable(1, Hi), Receive(1, Lo)] == [Drop(0, Hi)] + [Writable(1, Hi), Receive(1, Lo)];
  }
}
