/** The socket: an incremental reader and a queueing writer over a stream that answers as it likes. */
module Socket {
  import opened Options
  import opened Framing
  import opened Reading
  import opened Writing

  /** What the source keeps of a queued frame: when it was queued, and its bytes. */
  type PlainQueue = map<Priority, seq<(nat, seq<Byte>)>>

  ghost function Plain<T>(es: seq<Entry<T>>): seq<(nat, seq<Byte>)> {
    seq(|es|, i requires 0 <= i < |es| => (es[i].time, es[i].data))
  }

  /** The history's queue agrees with the socket's own. */
  ghost predicate Tracks<T>(q: Queue<T>, plain: PlainQueue) {
    && q.Keys == plain.Keys
    && forall p :: p in q ==> Plain(q[p]) == plain[p]
  }

  class SockInner<T(!new)> {
    const codec: Codec<T>
    var readBuffer: seq<Byte>
    var readLen: nat
    var writeQueue: PlainQueue
    var currentWrite: Option<seq<Byte>>
    var writeInterest: bool
    ghost var hist: Writer<T>

    constructor (codec: Codec<T>)
      ensures ReaderValid() && WriterValid()
      ensures this.codec == codec && Pending() == [] && hist == NewWriter()
    {
      this.codec := codec;
      readBuffer, readLen := [], 0;
      writeQueue, currentWrite, writeInterest := map[], None, false;
      hist := NewWriter();
    }

    // ----- Reading -----

    ghost predicate ReaderValid()
      reads this`readLen
    {
      readLen <= MAX_PAYLOAD_SIZE
    }

    /** The bytes taken from the stream and not yet returned, with the length prefix put back. */
    ghost function Pending(): seq<Byte>
      reads this`readBuffer, this`readLen
    {
      if readLen == 0 then readBuffer else LE32(readLen) + readBuffer
    }

    /** Agrees with parsing the unread bytes afresh, wherever the previous call had stopped. */
    method ReadFromBuffer() returns (r: ReadResult<T>)
      requires ReaderValid()
      modifies this`readBuffer, this`readLen
      ensures match Parse(codec, old(Pending()))
              case Complete(m, rest) => r == Message(m) && Pending() == rest && ReaderValid()
              case Incomplete => r == Nothing && Pending() == old(Pending()) && ReaderValid()
              case Bad(e) => r == Failed(e)
    {
      ghost var before := Pending();
      if readLen == 0 {
        if |readBuffer| < 4 {
          return Nothing;
        }
        readLen := FromLE32(readBuffer[..4]);
        if readLen > MAX_PAYLOAD_SIZE {
          return Failed(PayloadSizeProhibitive);
        }
        LE32Prefix(readBuffer);
        readBuffer := readBuffer[4..];
      }
      assert before == LE32(readLen) + readBuffer;
      ParseBody(codec, readLen, readBuffer);
      if readLen > |readBuffer| {
        return Nothing;
      }
      var decoded := codec.dec(readBuffer);
      if decoded.None? {
        return Failed(Serialisation);
      }
      readBuffer := readBuffer[readLen..];
      readLen := 0;
      return Message(decoded.value);
    }

    /** The read loop: appends what the stream gives until it stops giving, and says how it stopped. */
    method Gather(outs: seq<ReadOutcome>) returns (ending: ReadOutcome, somethingRead: bool, used: nat)
      requires ReaderValid()
      modifies this`readBuffer
      ensures ReaderValid() && Pending() == old(Pending()) + Arrived(outs)
      ensures ending == Ending(outs) && (!somethingRead ==> Arrived(outs) == [])
      ensures used == Consumed(outs)
    {
      somethingRead, used := false, 0;
      assert outs[0..] == outs;
      while used < |outs|
        invariant used <= |outs| && ReaderValid()
        invariant Pending() + Arrived(outs[used..]) == old(Pending()) + Arrived(outs)
        invariant !somethingRead ==> Arrived(outs) == Arrived(outs[used..])
        invariant Ending(outs) == Ending(outs[used..])
        invariant Consumed(outs) == used + Consumed(outs[used..])
      {
        ghost var left := outs[used..];
        var out := outs[used];
        used := used + 1;
        assert left[1..] == outs[used..];
        if !out.Bytes? || out.data == [] {
          return out, somethingRead, used;
        }
        Append(out.data);
        somethingRead := true;
        Regroup(Pending()[..|Pending()| - |out.data|], out.data, Arrived(left[1..]));
      }
      ending := ReadOutcome.Again;
    }

    method Append(data: seq<Byte>)
      modifies this`readBuffer
      ensures Pending() == old(Pending()) + data
    {
      Regroup(LE32(readLen), readBuffer, data);
      readBuffer := readBuffer + data;
    }

    /** One call of the reader does what `ReadCall` says of the unread bytes as a whole. `used`
        counts the stream answers it consumed. */
    method Read(outs: seq<ReadOutcome>) returns (r: ReadResult<T>, used: nat)
      requires ReaderValid()
      modifies this`readBuffer, this`readLen
      ensures used == if Parse(codec, old(Pending())).Incomplete? then Consumed(outs) else 0
      ensures r == ReadCall(codec, old(Pending()), outs).0
      ensures r == Failed(Io) <==> Parse(codec, old(Pending())).Incomplete? && StopsWith(outs, ReadOutcome.Fatal)
      ensures r == Failed(ZeroByteRead) <==>
              && Parse(codec, old(Pending())).Incomplete? && Parse(codec, old(Pending()) + Arrived(outs)).Incomplete?
              && StopsWith(outs, Bytes([]))
      ensures Benign(r) ==> ReaderValid() && Pending() == ReadCall(codec, old(Pending()), outs).1
      ensures Taken(codec, old(Pending()), outs) + Everything(outs[used..]) == Everything(outs)
    {
      ghost var pending := Pending();
      assert pending + [] == pending;
      ArrivedThenRest(outs);
      ReadAnswers(codec, pending, outs);
      used := 0;
      r := ReadFromBuffer();
      if r != Nothing {
        return;
      }
      var ending, somethingRead;
      ending, somethingRead, used := Gather(outs);
      if ending.Fatal? {
        return Failed(Io), used;
      }
      if somethingRead {
        r := ReadFromBuffer();
      }
      if r == Nothing && ending.Bytes? {
        r := Failed(ZeroByteRead);
      }
    }

    // ----- Writing -----

    ghost predicate WriterValid()
      reads this`writeQueue, this`currentWrite, this`writeInterest, this`hist
    {
      && NoEmptyQueue(hist.queue)
      && Tracks(hist.queue, writeQueue)
      && hist.current == currentWrite
      && hist.armed == writeInterest
    }

    /** Skips past the queues that must stay, in ascending key order, and lists all from there on. */
    method ExpiredKeys(now: Times) returns (expired: seq<Priority>)
      requires WriterValid()
      ensures forall p :: p in expired <==> p in writeQueue && !Kept(hist.queue, now, p)
    {
      expired := [];
      var skipping := true;
      for p := 0 to 256
        invariant skipping <==> forall p': Priority :: p' < p ==> !Offends(hist.queue, now, p')
        invariant forall p' :: p' in expired <==> p' < p && p' in writeQueue && !Kept(hist.queue, now, p')
      {
        if p in writeQueue {
          assert Plain(hist.queue[p]) == writeQueue[p];
          var queue := writeQueue[p];
          var recent := p < MSG_DROP_PRIORITY || queue == [] ||
                        (now.looked(p) - queue[0].0) / NANOS_PER_SEC <= MAX_MSG_AGE_SECS;
          assert !recent <==> Offends(hist.queue, now, p);
          if !(skipping && recent) {
            skipping := false;
            assert !Kept(hist.queue, now, p);
            expired := expired + [p];
          }
        }
      }
    }

    /** Drops every queue from the first expired one on. */
    method DropExpired(now: Times)
      requires WriterValid()
      modifies this`writeQueue, this`hist
      ensures WriterValid() && hist == DropStale(old(hist), now)
    {
      var expired := ExpiredKeys(now);
      for k := 0 to |expired|
        invariant hist == old(hist)
        invariant forall p :: p in writeQueue <==> p in old(writeQueue) && p !in expired[..k]
        invariant forall p :: p in writeQueue ==> writeQueue[p] == old(writeQueue)[p]
      {
        writeQueue := writeQueue - {expired[k]};
        assert expired[..k + 1] == expired[..k] + [expired[k]];
      }
      assert expired[..|expired|] == expired;
      hist := DropStale(hist, now);
      assert forall p :: p in hist.queue <==> p in writeQueue;
    }

    method Queue(now: nat, m: T, p: Priority)
      requires WriterValid() && hist.clock == now
      modifies this`writeQueue, this`hist
      ensures WriterValid() && hist == Enqueue(codec, old(hist), m, p)
      ensures writeQueue.Keys == old(writeQueue).Keys + {p}
      ensures writeQueue[p] == (if p in old(writeQueue) then old(writeQueue)[p] else []) + [(now, Frame(codec, m))]
      ensures forall q :: q in old(writeQueue) && q != p ==> writeQueue[q] == old(writeQueue)[q]
    {
      var data := Frame(codec, m);
      ghost var e := Entry(|hist.enqueued|, p, now, m, data);
      ghost var q := hist.queue;
      var entry := if p in writeQueue then writeQueue[p] else [];
      writeQueue := writeQueue[p := entry + [(now, data)]];
      hist := Enqueue(codec, hist, m, p);
      assert Plain(hist.queue[p]) == (if p in q then Plain(q[p]) else []) + [(now, data)];
    }

    /** Starts on the head of the first queue in key order; no queue in the map is ever empty. */
    method PickNext()
      requires WriterValid() && writeQueue != map[]
      modifies this`writeQueue, this`currentWrite, this`hist
      ensures WriterValid() && hist == Pick(old(hist))
    {
      assert hist.queue != map[] by { var p :| p in writeQueue; assert p in hist.queue; }
      var key: int := 0;
      while key !in writeQueue
        invariant 0 <= key < 256 && hist == old(hist) && writeQueue == old(writeQueue)
        invariant forall p :: p in writeQueue ==> key <= p
        decreases 256 - key
      {
        assert exists p :: p in writeQueue;
        key := key + 1;
      }
      ghost var es := hist.queue[key];
      assert Plain(es) == writeQueue[key];
      assert IsLeast(hist.queue, key) && key == Least(hist.queue);
      var queue := writeQueue[key];
      var data := queue[0].1;
      queue := queue[1..];
      assert Plain(es[1..]) == queue;
      if queue == [] {
        writeQueue := writeQueue - {key};
      } else {
        writeQueue := writeQueue[key := queue];
      }
      currentWrite := Some(data);
      hist := Pick(hist);
    }

    /** One call of the writer. `now` says when it reads the clock, `out` what the stream answers if it
        is offered anything, `registered` whether the poll takes the new interest. */
    method Write(now: Times, msg: Option<(T, Priority)>, out: WriteOutcome, registered: bool) returns (r: WriteResult)
      requires WriterValid() && Offerable(codec, hist, now, msg, out)
      modifies this`writeQueue, this`currentWrite, this`writeInterest, this`hist
      ensures WriterValid()
      ensures (hist, r) == WriteCall(codec, old(hist), now, msg, out, registered)
      ensures msg.Some? ==>
                && |hist.enqueued| == old(|hist.enqueued|) + 1
                && var e := hist.enqueued[old(|hist.enqueued|)];
                   e.msg == msg.value.0 && e.prio == msg.value.1 && e.time == now.stamped
    {
      DropExpired(now);
      if msg.Some? {
        Queue(now.stamped, msg.value.0, msg.value.1);
      }
      assert hist.queue == map[] <==> writeQueue == map[] by { SameEmptiness(hist.queue, writeQueue); }
      if currentWrite.None? {
        if writeQueue == map[] {
          return Done;
        }
        PickNext();
      }
      r := Send(out, registered);
    }

    /** Offers the current frame to the stream once. */
    method Send(out: WriteOutcome, registered: bool) returns (r: WriteResult)
      requires WriterValid() && currentWrite.Some?
      requires out.Accepted? ==> out.count <= |currentWrite.value|
      modifies this`currentWrite, this`writeInterest, this`hist
      ensures WriterValid()
      ensures (hist, r) == Transmit(old(hist), out, registered)
    {
      SameEmptiness(hist.queue, writeQueue);
      var data := currentWrite.value;
      hist := Transmit(hist, out, registered).0;
      currentWrite := None;
      match out {
        case Accepted(n) =>
          if n < |data| {
            currentWrite := Some(data[n..]);
          }
        case Again =>
          currentWrite := Some(data);
        case Fatal =>
          return WriteFailed;
      }
      assert hist.current == currentWrite;
      var done := currentWrite.None? && writeQueue == map[];
      if !registered {
        return WriteFailed;
      }
      writeInterest := !done;
      r := if done then Done else Blocked;
    }
  }

  lemma LE32Prefix(b: seq<Byte>)
    requires |b| >= 4
    ensures LE32(FromLE32(b[..4])) + b[4..] == b
  {
    var n := FromLE32(b[..4]);
    assert n % 256 == b[0];
    assert n / 256 == b[1] as int + 256 * (b[2] as int) + 65536 * (b[3] as int);
    assert n / 65536 == b[2] as int + 256 * (b[3] as int);
    assert n / 16777216 == b[3];
  }

  /** A frame whose length is already known parses as its body says. */
  lemma ParseBody<T>(c: Codec<T>, len: nat, body: seq<Byte>)
    requires len <= MAX_PAYLOAD_SIZE
    ensures Parse(c, LE32(len) + body) ==
            if len > |body| then Incomplete
            else match c.dec(body)
                 case None => Bad(Serialisation)
                 case Some(m) => Complete(m, body[len..])
  {
    LE32RoundTrip(len);
    ParsePrefixed(c, LE32(len), body);
  }

  lemma SameEmptiness<T>(q: Queue<T>, plain: PlainQueue)
    requires Tracks(q, plain)
    ensures q == map[] <==> plain == map[]
  {
    assert q == map[] <==> q.Keys == {};
    assert plain == map[] <==> plain.Keys == {};
  }
}
