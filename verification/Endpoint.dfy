/** One side of a connection reading its way through the handshake into service, by whichever way it
    enters: the socket moves from state to state with whatever it has buffered, and nothing in it is
    left waiting. */
module Endpoint {
  import opened Framing
  import opened Reading
  import opened Messages
  import opened Socket

  /** What an incoming exchange goes on to once its reply is written. */
  datatype Next = ToCandidate | ToActive

  /** `Asking` is the outgoing exchange, `Answering` and `Replying` the incoming one, `Trying` a bootstrap's
      try, `Choosing` the candidate. */
  datatype Phase = Asking | Answering | Replying(next: Next) | Trying | Choosing | Active | Closed

  datatype Event = ConnectSuccess | BootstrapConnect | BootstrapAccept | NewMessage(data: Payload) | LostPeer

  /** The events that reading `ms` in service gives rise to: data is passed up, the rest only
      shows that the peer is there. */
  function News(ms: seq<Message>): seq<Event> {
    if ms == [] then []
    else News(ms[..|ms| - 1]) + (if ms[|ms| - 1].Data? then [NewMessage(ms[|ms| - 1].data)] else [])
  }

  /** The first `k` of `ms` have been read and `pending` is what is left of the bytes received. */
  ghost predicate ReadSoFar<T(!new)>(c: Codec<T>, ms: seq<T>, k: nat, pending: seq<Byte>, received: seq<Byte>) {
    && k <= |ms| && AllSendable(c, ms) && SelfDelimiting(c)
    && received <= Frames(c, ms)
    && Frames(c, ms[..k]) + pending == received
  }

  class Endpoint {
    const ourId: Uid
    const nameHash: NameHash
    /** The messages the peer puts on this connection, whatever they are. */
    ghost const wire: seq<Message>
    const socket: SockInner<Message>
    /** Who the peer is to be, or has turned out to be. */
    var peer: Uid
    var phase: Phase
    var events: seq<Event>
    /** Bytes taken off the stream, whole messages read from them, and how many of those before service. */
    ghost var received: seq<Byte>
    ghost var consumed: nat
    ghost var base: nat

    ghost predicate Sound()
      reads this, socket
    {
      && socket.ReaderValid()
      && ReadSoFar(socket.codec, wire, consumed, socket.Pending(), received)
    }

    /** The script's bytes are the next ones of the peer's messages. */
    ghost predicate Genuine(outs: seq<ReadOutcome>)
      reads this, socket
    {
      received + Everything(outs) <= Frames(socket.codec, wire)
    }

    /** No complete message is sitting in the buffer. */
    ghost predicate Drained()
      reads socket
    {
      Parse(socket.codec, socket.Pending()).Incomplete?
    }

    /** The handshake that leads into service with the event `up` takes `n` messages, and they are the
        ones it takes: an introduction and, except at the larger id, the peer's choice; or a grant; or a
        request for one. */
    ghost predicate EnteredBy(up: Event, n: nat)
      requires 1 <= n <= |wire|
      reads this
    {
      match up
      case ConnectSuccess =>
        && wire[0] == Connect(peer, nameHash)
        && (n == 1 ==> ourId > peer)
        && (n != 1 ==> n == 2 && wire[1] == ChooseConnection)
      case BootstrapConnect => n == 1 && wire[0] == BootstrapGranted(peer)
      case BootstrapAccept =>
        n == 1 && wire[0].BootstrapRequest? && wire[0].uid == peer && wire[0].nameHash == nameHash
      case _ => false
    }

    ghost predicate Entered(up: Event)
      reads this
    {
      1 <= base <= consumed <= |wire| && EnteredBy(up, base)
    }

    /** The events of a connection in service: one up, then one per data message read since. */
    ghost predicate Reported(es: seq<Event>)
      reads this
    {
      es != [] && Entered(es[0]) && es == [es[0]] + News(wire[base..consumed])
    }

    /** After every step: what has been passed up is exactly what the messages read so far say; and
        a connection in service has read every message whose bytes have come. */
    ghost predicate Valid()
      reads this, socket
    {
      && Sound()
      && match phase
         case Asking => consumed == 0 && events == []
         case Answering => consumed == 0 && events == []
         case Trying => consumed == 0 && events == []
         case Replying(next) =>
           && consumed == 1 <= |wire| && events == []
           && if next.ToCandidate? then wire[0] == Connect(peer, nameHash)
              else wire[0].BootstrapRequest? && wire[0].uid == peer && wire[0].nameHash == nameHash
         case Choosing => consumed == 1 <= |wire| && wire[0] == Connect(peer, nameHash) && events == []
         case Active => Reported(events) && Drained()
         case Closed =>
           events == [] || (events[|events| - 1] == LostPeer && Reported(events[..|events| - 1]))
    }

    constructor (codec: Codec<Message>, ourId: Uid, nameHash: NameHash, start: Phase, peer: Uid,
        ghost wire: seq<Message>)
      requires SelfDelimiting(codec) && AllSendable(codec, wire) && start in {Asking, Answering, Trying}
      ensures Valid() && phase == start && received == [] && fresh(socket) && this.peer == peer
      ensures this.ourId == ourId && this.nameHash == nameHash && this.wire == wire
    {
      this.ourId, this.nameHash, this.wire, this.peer := ourId, nameHash, wire, peer;
      socket := new SockInner(codec);
      phase, events, received, consumed, base := start, [], [], 0, 0;
      new;
      assert wire[..0] == [];
    }

    /** One socket read: takes the next of the peer's messages, or nothing. */
    method ReadOne(outs: seq<ReadOutcome>) returns (r: ReadResult<Message>, used: nat)
      requires Sound() && Genuine(outs)
      modifies socket`readBuffer, socket`readLen, this`received, this`consumed
      ensures Sound() && used <= |outs| && Genuine(outs[used..])
      ensures if r.Message? then old(consumed) < |wire| && r.msg == wire[old(consumed)] && consumed == old(consumed) + 1
              else consumed == old(consumed)
      ensures r == Nothing ==> Drained()
      ensures r.Failed? ==> Drained() || ReadOutcome.Fatal in outs
      ensures !r.Message? ==> (r.Failed? <==> StreamOver(outs))
      ensures r.Message? ==> Passes(outs, used)
    {
      ghost var pending := socket.Pending();
      ReadAnswers(socket.codec, pending, outs);
      MessagePasses(socket.codec, pending, outs);
      ReadStep(socket.codec, wire, consumed, pending, received, outs);
      NoFrameLeftBehind(socket.codec, pending, outs);
      OnlyFatalFails(socket.codec, pending, outs);
      ghost var taken := Taken(socket.codec, pending, outs);
      r, used := socket.Read(outs);
      Regroup(received, taken, Everything(outs[used..]));
      received := received + taken;
      if r.Message? {
        consumed := consumed + 1;
      }
    }

    /** The outgoing exchange's read: the reply must be from the peer and network expected. */
    method ReceiveResponse(outs: seq<ReadOutcome>)
      requires Valid() && phase == Asking && Genuine(outs)
      modifies this`phase, socket`readBuffer, socket`readLen, this`received, this`consumed
      ensures Valid() && phase in {Asking, Choosing, Closed}
      ensures if consumed == 0 then
                phase == (if StreamOver(outs) then Closed else Asking) && (Drained() || ReadOutcome.Fatal in outs)
              else phase == if wire[0] == Connect(peer, nameHash) then Choosing else Closed
    {
      var r, used := ReadOne(outs);
      if r.Message? && r.msg.Connect? && r.msg.uid == peer && r.msg.nameHash == nameHash {
        phase := Choosing;
      } else if r != Nothing {
        phase := Closed;
      }
    }

    /** The incoming exchange's read: an introduction or a request to bootstrap goes on if the network is
        the right one, the peer is not ourselves, and `granted`: it is whitelisted and, if it has to be,
        reachable. Anything else is answered or not, but leads nowhere. */
    method ReadRequest(outs: seq<ReadOutcome>, granted: bool)
      requires Valid() && phase == Answering && Genuine(outs)
      modifies this`phase, this`peer, socket`readBuffer, socket`readLen, this`received, this`consumed
      ensures Valid() && (phase in {Answering, Closed} || phase.Replying?)
      ensures phase.Replying? ==> peer != ourId
      ensures if consumed == 0 then
                phase == (if StreamOver(outs) then Closed else Answering) && (Drained() || ReadOutcome.Fatal in outs)
              else
                var m := wire[0];
                if granted && (m.Connect? || m.BootstrapRequest?) && m.nameHash == nameHash && m.uid != ourId then
                  phase == Replying(if m.Connect? then ToCandidate else ToActive) && peer == m.uid
                else phase == Closed
    {
      var r, used := ReadOne(outs);
      if r == Nothing {
        return;
      }
      if r.Message? && granted && (r.msg.Connect? || r.msg.BootstrapRequest?) && r.msg.nameHash == nameHash
          && r.msg.uid != ourId {
        peer := r.msg.uid;
        phase := Replying(if r.msg.Connect? then ToCandidate else ToActive);
      } else {
        phase := Closed;
      }
    }

    /** The reply has been written: on to being a candidate, or to service at once. */
    method ReplyWritten(outs: seq<ReadOutcome>)
      requires Valid() && phase.Replying? && Genuine(outs)
      modifies this`phase, this`events, this`base, socket`readBuffer, socket`readLen, this`received, this`consumed
      ensures Valid() && phase in {Choosing, Active, Closed} && (phase == Choosing <==> old(phase.next).ToCandidate?)
      ensures phase == Closed ==> Drained() || ReadOutcome.Fatal in outs
      ensures phase != Choosing ==> Settled(outs, phase == Closed)
    {
      if phase.next.ToCandidate? {
        phase := Choosing;
      } else {
        Serve(BootstrapAccept, outs);
      }
    }

    /** A try's read: a grant leads into service, with the frames behind it read at once. */
    method ReadGrant(outs: seq<ReadOutcome>)
      requires Valid() && phase == Trying && Genuine(outs)
      modifies this`phase, this`peer, this`events, this`base
      modifies socket`readBuffer, socket`readLen, this`received, this`consumed
      ensures Valid() && phase in {Trying, Active, Closed} && (phase == Trying ==> Drained())
      ensures phase == Closed && events != [] ==> Drained() || ReadOutcome.Fatal in outs
      ensures if consumed == 0 then phase == (if StreamOver(outs) then Closed else Trying)
              else if wire[0].BootstrapGranted? then
                events != [] && events[0] == BootstrapConnect && Settled(outs, phase == Closed)
              else phase == Closed && events == []
    {
      var r, used := ReadOne(outs);
      if r.Message? && r.msg.BootstrapGranted? {
        peer := r.msg.uid;
        Serve(BootstrapConnect, outs[used..]);
        SettledAfter(outs, used, phase == Closed);
      } else if r != Nothing {
        phase := Closed;
      }
    }

    /** The candidate's read: a choice leads into service, with the frames behind it read at once. */
    method ReadChoice(outs: seq<ReadOutcome>)
      requires Valid() && phase == Choosing && Genuine(outs)
      modifies this`phase, this`events, this`base, socket`readBuffer, socket`readLen, this`received, this`consumed
      ensures Valid() && phase in {Choosing, Active, Closed} && (phase == Choosing ==> Drained())
      ensures phase == Closed && events != [] ==> Drained() || ReadOutcome.Fatal in outs
      ensures if consumed == 1 then phase == (if StreamOver(outs) then Closed else Choosing)
              else if 2 <= |wire| && wire[1] == ChooseConnection then
                events != [] && events[0] == ConnectSuccess && Settled(outs, phase == Closed)
              else phase == Closed && events == []
    {
      var r, used := ReadOne(outs);
      if r == Message(ChooseConnection) {
        Serve(ConnectSuccess, outs[used..]);
        SettledAfter(outs, used, phase == Closed);
      } else if r != Nothing {
        phase := Closed;
      }
    }

    /** The larger id has written its choice: into service, with whatever the peer has sent read at once. */
    method ChoiceWritten(outs: seq<ReadOutcome>)
      requires Valid() && phase == Choosing && ourId > peer && Genuine(outs)
      modifies this`phase, this`events, this`base, socket`readBuffer, socket`readLen, this`received, this`consumed
      ensures Valid() && phase in {Active, Closed} && Settled(outs, phase == Closed)
      ensures phase == Closed ==> Drained() || ReadOutcome.Fatal in outs
    {
      Serve(ConnectSuccess, outs);
    }

    /** Service begins: the event is sent and the socket read until it has no more. */
    method Serve(up: Event, outs: seq<ReadOutcome>)
      requires Sound() && Genuine(outs)
      requires 1 <= consumed <= |wire| && EnteredBy(up, consumed)
      modifies this`phase, this`events, this`base, socket`readBuffer, socket`readLen, this`received, this`consumed
      ensures Valid() && phase in {Active, Closed} && base == old(consumed) && events != [] && events[0] == up
      ensures phase == Closed ==> Drained() || ReadOutcome.Fatal in outs
      ensures Settled(outs, phase == Closed) && old(consumed) <= consumed
    {
      base := consumed;
      events := [up];
      assert wire[base..consumed] == [];
      ReadLoop(outs);
    }

    /** A readable event in service. The connection is given up if the stream is found to be over, and only
        then; `Valid` says that the loss is the last thing reported. */
    method Readable(outs: seq<ReadOutcome>)
      requires Valid() && phase == Active && Genuine(outs)
      modifies this`phase, this`events, socket`readBuffer, socket`readLen, this`received, this`consumed
      ensures Valid() && phase in {Active, Closed} && base == old(base)
      ensures phase == Closed ==> Drained() || ReadOutcome.Fatal in outs
      ensures Settled(outs, phase == Closed) && (phase == Closed <==> LostPeer in events)
      ensures StopsWith(outs, ReadOutcome.Fatal) || EndsForGood(outs) ==> phase == Closed
    {
      ReadLoop(outs);
      OverIsReached(outs, phase == Closed);
      NewsHasNoLoss(wire[base..consumed]);
    }

    /** One round of the loop below: passes one message up, or finds there is none. */
    method ReadAndReport(outs: seq<ReadOutcome>) returns (more: bool, used: nat)
      requires Sound() && Genuine(outs) && Reported(events)
      modifies this`phase, this`events, socket`readBuffer, socket`readLen, this`received, this`consumed
      ensures used <= |outs| && Genuine(outs[used..]) && events != [] && events[0] == old(events[0])
      ensures if more then Sound() && Reported(events) && consumed == old(consumed) + 1
              else Valid() && phase in {Active, Closed} && consumed == old(consumed)
      ensures !more && phase == Closed ==> Drained() || ReadOutcome.Fatal in outs
      ensures if more then Passes(outs, used) else (phase == Closed <==> StreamOver(outs))
    {
      ghost var k := consumed;
      var r;
      r, used := ReadOne(outs);
      more := r.Message?;
      if more {
        PassUp(r.msg, k);
      } else if r == Nothing {
        phase := Active;
      } else {
        phase := Closed;
        ghost var before := events;
        events := events + [LostPeer];
        assert events[..|events| - 1] == before;
      }
    }

    /** Message `k` has been read; data in it is reported. */
    method PassUp(m: Message, ghost k: nat)
      requires 1 <= base <= k < |wire| && consumed == k + 1 && m == wire[k]
      requires events != [] && EnteredBy(events[0], base) && events == [events[0]] + News(wire[base..k])
      modifies this`events
      ensures Reported(events) && events[0] == old(events[0])
    {
      NewsAppend(wire, base, k, events[0]);
      if m.Data? {
        events := events + [NewMessage(m.data)];
      }
    }

    /** Reads until the socket has nothing more; end of stream or an error ends the connection. Unless
        the stream itself failed, every complete message has been passed up by then. */
    method ReadLoop(outs: seq<ReadOutcome>)
      requires Sound() && Genuine(outs) && Reported(events)
      modifies this`phase, this`events, socket`readBuffer, socket`readLen, this`received, this`consumed
      ensures Valid() && phase in {Active, Closed} && old(consumed) <= consumed
      ensures events != [] && events[0] == old(events[0])
      ensures phase == Closed ==> Drained() || ReadOutcome.Fatal in outs
      ensures Settled(outs, phase == Closed)
    {
      var rest := outs;
      ghost var last := 0;
      while true
        invariant old(consumed) <= consumed && Sound() && Reported(events) && events[0] == old(events[0])
        invariant 0 <= last <= |outs| && Passed(outs, last) && rest == outs[last..] && Genuine(rest)
        decreases |wire| - consumed
      {
        var more, used := ReadAndReport(rest);
        if !more {
          return;
        }
        PassedOn(outs, last, used);
        rest := rest[used..];
        last := last + used;
      }
    }
  }

  /** Where the stream ends for good: nothing but empty reads from answer `k` on. */
  ghost predicate EndsAt(outs: seq<ReadOutcome>, k: nat) {
    StopsAt(outs, k) && forall i :: k <= i < |outs| ==> outs[i] == Bytes([])
  }

  /** Reads that found messages have taken the first `n` answers: no fatal error among them, and of a stream
      that ends for good no more than the first empty read, which came with the last of the bytes. */
  ghost predicate Passed(outs: seq<ReadOutcome>, n: nat) {
    && n <= |outs| && ReadOutcome.Fatal !in outs[..n]
    && forall k: nat :: EndsAt(outs, k) ==> n <= if k == 0 then 0 else k + 1
  }

  /** One such read. */
  ghost predicate Passes(outs: seq<ReadOutcome>, used: nat) {
    used <= |outs| && (used == 0 || (used == Consumed(outs) && Arrived(outs) != [] && !StopsWith(outs, Fatal)))
  }

  lemma MessagePasses<T>(c: Codec<T>, pending: seq<Byte>, outs: seq<ReadOutcome>)
    ensures ReadCall(c, pending, outs).0.Message? ==>
              Passes(outs, if Parse(c, pending).Incomplete? then Consumed(outs) else 0)
  {
    ReadAnswers(c, pending, outs);
    assert pending + [] == pending;
  }

  lemma PassedOn(outs: seq<ReadOutcome>, n: nat, used: nat)
    requires Passed(outs, n) && Passes(outs[n..], used)
    ensures Passed(outs, n + used)
  {
    var rest := outs[n..];
    assert outs[..n + used] == outs[..n] + rest[..used];
    PassesNoFatal(rest, used);
    forall k: nat | EndsAt(outs, k) ensures n + used <= if k == 0 then 0 else k + 1 {
      if used > 0 {
        assert IsChunk(rest[0]) && rest[0] == outs[n];
        assert n < k && StopsAt(rest, k - n);
        LoopStops(rest, k - n);
      }
    }
  }

  lemma PassesNoFatal(outs: seq<ReadOutcome>, used: nat)
    requires Passes(outs, used)
    ensures ReadOutcome.Fatal !in outs[..used]
  {
    var k := FirstStop(outs, 0);
    if k < |outs| { LoopStops(outs, k); } else { LoopRunsOut(outs); }
  }

  /** The reads that found messages took the first answers; from there on the stream is over, or not. */
  ghost predicate Settled(outs: seq<ReadOutcome>, closed: bool) {
    exists last: nat :: Passed(outs, last) && (closed <==> StreamOver(outs[last..]))
  }

  lemma PassedBoth(outs: seq<ReadOutcome>, m: nat, n: nat)
    requires Passed(outs, m) && Passed(outs[m..], n)
    ensures Passed(outs, m + n)
  {
    var rest := outs[m..];
    assert outs[..m + n] == outs[..m] + rest[..n];
    forall k: nat | EndsAt(outs, k) ensures m + n <= if k == 0 then 0 else k + 1 {
      EndsAfter(outs, m, k);
    }
  }

  /** What is left of a stream that ends for good does so too. */
  lemma EndsAfter(outs: seq<ReadOutcome>, m: nat, k: nat)
    requires EndsAt(outs, k) && m <= |outs|
    ensures m <= k ==> EndsAt(outs[m..], k - m)
    ensures k < m < |outs| ==> EndsAt(outs[m..], 0)
  {
    var rest := outs[m..];
    assert forall i :: 0 <= i < |rest| ==> rest[i] == outs[m + i];
  }

  lemma SettledAfter(outs: seq<ReadOutcome>, used: nat, closed: bool)
    requires Passes(outs, used) && Settled(outs[used..], closed)
    ensures Settled(outs, closed)
  {
    var rest := outs[used..];
    var last: nat :| Passed(rest, last) && (closed <==> StreamOver(rest[last..]));
    assert outs[0..] == outs && Passed(outs, 0);
    PassedOn(outs, 0, used);
    PassedBoth(outs, used, last);
    assert outs[used + last..] == rest[last..];
  }

  /** The stream ends for good, and the script goes on to say so. */
  ghost predicate EndsForGood(outs: seq<ReadOutcome>) {
    exists k: nat :: EndsAt(outs, k) && (k == 0 || k + 1 < |outs|)
  }

  /** A fatal error behind the chunks, or an end for good, is reached however many messages come before it. */
  lemma OverIsReached(outs: seq<ReadOutcome>, closed: bool)
    requires Settled(outs, closed)
    ensures StopsWith(outs, ReadOutcome.Fatal) || EndsForGood(outs) ==> closed
    ensures closed ==> Bytes([]) in outs || ReadOutcome.Fatal in outs
  {
    var last: nat :| Passed(outs, last) && (closed <==> StreamOver(outs[last..]));
    var rest := outs[last..];
    if StopsWith(outs, ReadOutcome.Fatal) {
      var k: nat :| StopsAt(outs, k) && outs[k] == ReadOutcome.Fatal;
      assert last <= k by { assert forall i :: 0 <= i < last ==> outs[..last][i] == outs[i]; }
      assert StopsAt(rest, k - last) && rest[k - last] == ReadOutcome.Fatal;
    } else if EndsForGood(outs) {
      var k: nat :| EndsAt(outs, k) && (k == 0 || k + 1 < |outs|);
      var j := if last <= k then k - last else 0;
      assert StopsAt(rest, j) && rest[j] == Bytes([]);
    }
  }

  lemma {:induction false} NewsHasNoLoss(ms: seq<Message>)
    ensures LostPeer !in News(ms)
  {
    if ms != [] { NewsHasNoLoss(ms[..|ms| - 1]); }
  }

  /** A read fails on well-formed input only at end of stream, or because the stream itself failed. */
  lemma OnlyFatalFails<T>(c: Codec<T>, pending: seq<Byte>, outs: seq<ReadOutcome>)
    ensures ReadCall(c, pending, outs).0 == Failed(Io) ==> ReadOutcome.Fatal in outs
  {
    EndingIsOne(outs);
  }

  lemma {:induction false} EndingIsOne(outs: seq<ReadOutcome>)
    ensures Ending(outs) == Again || Ending(outs) in outs
  {
    if outs != [] && IsChunk(outs[0]) { EndingIsOne(outs[1..]); }
  }

  lemma NewsAppend(wire: seq<Message>, base: nat, k: nat, up: Event)
    requires base <= k < |wire|
    ensures [up] + News(wire[base..k + 1]) ==
            ([up] + News(wire[base..k])) + (if wire[k].Data? then [NewMessage(wire[k].data)] else [])
  {
    assert wire[base..k + 1][..k - base] == wire[base..k];
  }

  /** The bytes of one call continue where the messages read so far left off. */
  lemma Continues<T(!new)>(c: Codec<T>, ms: seq<T>, k: nat, pending: seq<Byte>, received: seq<Byte>, taken: seq<Byte>)
    requires ReadSoFar(c, ms, k, pending, received) && received + taken <= Frames(c, ms)
    ensures AllSendable(c, ms[k..]) && pending + taken <= Frames(c, ms[k..])
    ensures Frames(c, ms[..k]) + (pending + taken) == received + taken
  {
    var head, tail := Frames(c, ms[..k]), Frames(c, ms[k..]);
    assert ms == ms[..k] + ms[k..];
    FramesAppend(c, ms[..k], ms[k..]);
    Regroup(head, pending, taken);
    Cancel(head, pending + taken, tail);
  }

  lemma Cancel(f: seq<Byte>, a: seq<Byte>, b: seq<Byte>)
    requires f + a <= f + b
    ensures a <= b
  {
    assert a == (f + a)[|f|..] && b == (f + b)[|f|..];
  }

  lemma OneMoreFrame<T(!new)>(c: Codec<T>, ms: seq<T>, k: nat, all: seq<Byte>, rest: seq<Byte>)
    requires k < |ms| && all == Frame(c, ms[k]) + rest
    ensures Frames(c, ms[..k + 1]) + rest == Frames(c, ms[..k]) + all
  {
    var f := Frame(c, ms[k]);
    assert ms[..k + 1] == ms[..k] + [ms[k]];
    FramesAppend(c, ms[..k], [ms[k]]);
    assert Frames(c, [ms[k]]) == f + Frames(c, []) == f;
    Regroup(Frames(c, ms[..k]), f, rest);
  }

  /** One read call moves on by one message, or by none. */
  lemma ReadStep<T(!new)>(c: Codec<T>, ms: seq<T>, k: nat, pending: seq<Byte>, received: seq<Byte>,
      outs: seq<ReadOutcome>)
    requires ReadSoFar(c, ms, k, pending, received) && received + Everything(outs) <= Frames(c, ms)
    ensures var (r, rest) := ReadCall(c, pending, outs);
            var received' := received + Taken(c, pending, outs);
            && Benign(r)
            && (r.Message? ==> k < |ms| && r.msg == ms[k])
            && ReadSoFar(c, ms, if r.Message? then k + 1 else k, rest, received')
  {
    var taken := Taken(c, pending, outs);
    ArrivedThenRest(outs);
    assert taken <= Everything(outs);
    assert received + taken <= received + Everything(outs);
    Continues(c, ms, k, pending, received, taken);
    CallOnFrames(c, ms[k..], pending, outs);
    var (r, rest) := ReadCall(c, pending, outs);
    if r.Message? {
      OneMoreFrame(c, ms, k, pending + taken, rest);
    }
  }
}
