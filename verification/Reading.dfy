/** What a reader is meant to do, on whole byte strings: the reference for `Socket.SockInner.Read`. */
module Reading {
  import opened Framing

  /** One answer of the stream. `Bytes([])` is end of stream; `Again` is would-block or interrupted. */
  datatype ReadOutcome = Bytes(data: seq<Byte>) | Again | Fatal

  datatype ReadResult<+T> = Message(msg: T) | Nothing | Failed(error: ReadError)

  predicate IsChunk(o: ReadOutcome) {
    o.Bytes? && o.data != []
  }

  /** The bytes a read loop gathers before the stream stops giving any. */
  function Arrived(outs: seq<ReadOutcome>): seq<Byte> {
    if outs == [] || !IsChunk(outs[0]) then [] else outs[0].data + Arrived(outs[1..])
  }

  /** The answer that stops the loop; a script that runs out counts as would-block. */
  function Ending(outs: seq<ReadOutcome>): ReadOutcome {
    if outs == [] then Again else if IsChunk(outs[0]) then Ending(outs[1..]) else outs[0]
  }

  /** The loop stops at answer `k`: the first that is not a chunk. */
  ghost predicate StopsAt(outs: seq<ReadOutcome>, k: nat) {
    k < |outs| && !IsChunk(outs[k]) && forall i :: 0 <= i < k ==> IsChunk(outs[i])
  }

  ghost predicate StopsWith(outs: seq<ReadOutcome>, o: ReadOutcome) {
    exists k: nat :: StopsAt(outs, k) && outs[k] == o
  }

  /** The stream has ended, or has failed for good, once the chunks are taken. */
  ghost predicate StreamOver(outs: seq<ReadOutcome>) {
    StopsWith(outs, Bytes([])) || StopsWith(outs, Fatal)
  }

  /** All the bytes of a script, past any pauses in it. */
  function Everything(outs: seq<ReadOutcome>): seq<Byte> {
    if outs == [] then [] else (if outs[0].Bytes? then outs[0].data else []) + Everything(outs[1..])
  }

  /** How many answers a read loop consumes: the chunks and the answer that stops it. */
  function Consumed(outs: seq<ReadOutcome>): (n: nat)
    ensures n <= |outs|
  {
    if outs == [] then 0 else if IsChunk(outs[0]) then 1 + Consumed(outs[1..]) else 1
  }

  /** The loop ends with the first answer that is not a chunk and consumes up to there, or the whole
      script if there is none. */
  lemma {:induction false} LoopStops(outs: seq<ReadOutcome>, k: nat)
    requires StopsAt(outs, k)
    ensures Ending(outs) == outs[k] && Consumed(outs) == k + 1
  {
    if k > 0 {
      var rest := outs[1..];
      assert StopsAt(rest, k - 1) by { assert forall i :: 0 <= i < k - 1 ==> rest[i] == outs[i + 1]; }
      LoopStops(rest, k - 1);
    }
  }

  lemma {:induction false} LoopRunsOut(outs: seq<ReadOutcome>)
    requires forall i :: 0 <= i < |outs| ==> IsChunk(outs[i])
    ensures Ending(outs) == Again && Consumed(outs) == |outs|
  {
    if outs != [] { LoopRunsOut(outs[1..]); }
  }

  lemma {:induction false} FirstStop(outs: seq<ReadOutcome>, n: nat) returns (k: nat)
    requires n <= |outs| && forall i :: 0 <= i < n ==> IsChunk(outs[i])
    ensures k <= |outs| && if k < |outs| then StopsAt(outs, k) else forall i :: 0 <= i < |outs| ==> IsChunk(outs[i])
    decreases |outs| - n
  {
    k := n;
    if n < |outs| && IsChunk(outs[n]) { k := FirstStop(outs, n + 1); }
  }

  lemma EndingIs(outs: seq<ReadOutcome>, o: ReadOutcome)
    requires !IsChunk(o) && o != Again
    ensures (Ending(outs) == o <==> StopsWith(outs, o)) && !IsChunk(Ending(outs))
  {
    var k := FirstStop(outs, 0);
    if k < |outs| { LoopStops(outs, k); } else { LoopRunsOut(outs); }
    if StopsWith(outs, o) {
      var j: nat :| StopsAt(outs, j) && outs[j] == o;
      LoopStops(outs, j);
    }
  }

  lemma {:induction false} ArrivedThenRest(outs: seq<ReadOutcome>)
    ensures Arrived(outs) + Everything(outs[Consumed(outs)..]) == Everything(outs)
  {
    if outs != [] {
      var rest := outs[1..];
      if IsChunk(outs[0]) {
        ArrivedThenRest(rest);
        assert outs[1 + Consumed(rest)..] == rest[Consumed(rest)..];
        Regroup(outs[0].data, Arrived(rest), Everything(rest[Consumed(rest)..]));
      } else {
        assert Arrived(outs) == [] && Consumed(outs) == 1;
        assert Everything(outs) == Everything(rest);
      }
    }
  }

  /** The bytes one call takes from the stream: none while a frame or an error is already buffered. */
  function Taken<T>(c: Codec<T>, pending: seq<Byte>, outs: seq<ReadOutcome>): seq<Byte> {
    if Parse(c, pending).Incomplete? then Arrived(outs) else []
  }

  /** Result of one call and the unread bytes it leaves. */
  function ReadCall<T>(c: Codec<T>, pending: seq<Byte>, outs: seq<ReadOutcome>): (ReadResult<T>, seq<Byte>) {
    var all := pending + Taken(c, pending, outs);
    if Parse(c, pending).Incomplete? && Ending(outs).Fatal? then (Failed(Io), all)
    else match Parse(c, all)
         case Complete(m, rest) => (Message(m), rest)
         case Bad(e) => (Failed(e), all)
         case Incomplete => (if Ending(outs).Bytes? then Failed(ZeroByteRead) else Nothing, all)
  }

  /** What a call answers. While a frame or a bad one is buffered it is that, whatever the stream would say.
      Otherwise a fatal error of the stream, met after the chunks, is the answer; then the frame or bad
      frame that the chunks complete; and if they complete none, end of stream is an error and anything
      else means nothing yet. */
  lemma ReadAnswers<T>(c: Codec<T>, pending: seq<Byte>, outs: seq<ReadOutcome>)
    ensures var r, before, after := ReadCall(c, pending, outs).0, Parse(c, pending), Parse(c, pending + Arrived(outs));
            && (r == Failed(Io) <==> before.Incomplete? && StopsWith(outs, Fatal))
            && (r == Failed(ZeroByteRead) <==> before.Incomplete? && after.Incomplete? && StopsWith(outs, Bytes([])))
            && (r == Nothing <==> before.Incomplete? && after.Incomplete? && !StreamOver(outs))
            && (before.Bad? ==> r == Failed(before.error))
            && (before.Incomplete? && after.Bad? && !StopsWith(outs, Fatal) ==> r == Failed(after.error))
            && (forall m :: r == Message(m) <==>
                  || (before.Complete? && before.msg == m)
                  || (before.Incomplete? && after.Complete? && after.msg == m && !StopsWith(outs, Fatal)))
  {
    EndingIs(outs, Fatal);
    EndingIs(outs, Bytes([]));
    assert pending + [] == pending;
    ParseErrors(c, pending);
    ParseErrors(c, pending + Arrived(outs));
  }

  lemma ParseErrors<T>(c: Codec<T>, bytes: seq<Byte>)
    ensures Parse(c, bytes).Bad? ==> Parse(c, bytes).error in {PayloadSizeProhibitive, Serialisation}
  {
  }

  /** "Nothing" and end of stream are reported only once no complete frame is buffered. */
  lemma NoFrameLeftBehind<T>(c: Codec<T>, pending: seq<Byte>, outs: seq<ReadOutcome>)
    ensures var (r, rest) := ReadCall(c, pending, outs);
            r == Nothing || r == Failed(ZeroByteRead) ==> Parse(c, rest).Incomplete?
  {
    var all := pending + Taken(c, pending, outs);
    match Parse(c, all) {
      case Incomplete =>
      case Complete(_, _) =>
      case Bad(e) => assert e != ZeroByteRead;
    }
  }

  /** A run of calls, each with its own stream script. */
  datatype ReadRun<+T> = ReadRun(results: seq<ReadResult<T>>, pending: seq<Byte>, taken: seq<Byte>)

  function Reads<T>(c: Codec<T>, pending: seq<Byte>, calls: seq<seq<ReadOutcome>>): (run: ReadRun<T>)
    ensures |run.results| == |calls|
    decreases |calls|
  {
    if calls == [] then ReadRun([], pending, [])
    else
      var (r, rest) := ReadCall(c, pending, calls[0]);
      var run := Reads(c, rest, calls[1..]);
      ReadRun([r] + run.results, run.pending, Taken(c, pending, calls[0]) + run.taken)
  }

  function Delivered<T>(results: seq<ReadResult<T>>): seq<T> {
    if results == [] then []
    else (if results[0].Message? then [results[0].msg] else []) + Delivered(results[1..])
  }

  /** Only the connection itself can fail a reader of well-formed frames. */
  predicate Benign<T>(r: ReadResult<T>) {
    r.Failed? ==> r.error == ZeroByteRead || r.error == Io
  }

  /** One call on a prefix of the frames of `ms`: either the first message comes off whole, or
      nothing does and every byte is kept. */
  lemma CallOnFrames<T(!new)>(c: Codec<T>, ms: seq<T>, pending: seq<Byte>, outs: seq<ReadOutcome>)
    requires SelfDelimiting(c) && AllSendable(c, ms)
    requires pending + Taken(c, pending, outs) <= Frames(c, ms)
    ensures var all := pending + Taken(c, pending, outs);
            var (r, rest) := ReadCall(c, pending, outs);
            && Benign(r)
            && (if r.Message?
                then ms != [] && r.msg == ms[0] && all == Frame(c, ms[0]) + rest && rest <= Frames(c, ms[1..])
                else rest == all)
  {
    var all := pending + Taken(c, pending, outs);
    assert pending <= Frames(c, ms);
    ParsePrefixOfFrames(c, ms, all);
    ParsePrefixOfFrames(c, ms, pending);
  }

  lemma PrefixShift<X>(f: seq<X>, rest: seq<X>, more: seq<X>, tail: seq<X>)
    requires (f + rest) + more <= f + tail
    ensures rest + more <= tail
    ensures (f + rest) + more == f + (rest + more)
  {
    assert (f + rest) + more == f + (rest + more);
    assert rest + more == (f + (rest + more))[|f|..] && tail == (f + tail)[|f|..];
  }

  /** Whatever the chunking, and whatever end of stream or would-block is mixed in, a run of calls
      over a prefix of the frames of `ms` returns a prefix of `ms` in order, accounts for every
      byte it took, and fails only for the connection's own sake. */
  lemma {:induction false} ReadsDeliver<T(!new)>(c: Codec<T>, ms: seq<T>, pending: seq<Byte>,
      calls: seq<seq<ReadOutcome>>)
    requires SelfDelimiting(c) && AllSendable(c, ms)
    requires pending + Reads(c, pending, calls).taken <= Frames(c, ms)
    ensures Accounted(c, ms, pending, Reads(c, pending, calls))
    decreases |calls|
  {
    if calls != [] {
      var (r, rest) := ReadCall(c, pending, calls[0]);
      var run' := Reads(c, rest, calls[1..]);
      var taken := Taken(c, pending, calls[0]);
      assert pending + (taken + run'.taken) == (pending + taken) + run'.taken;
      assert pending + taken <= Frames(c, ms);
      CallOnFrames(c, ms, pending, calls[0]);
      if r.Message? {
        PrefixShift(Frame(c, ms[0]), rest, run'.taken, Frames(c, ms[1..]));
        ReadsDeliver(c, ms[1..], rest, calls[1..]);
      } else {
        ReadsDeliver(c, ms, rest, calls[1..]);
      }
      AccountedCons(c, ms, pending, taken, r, rest, run');
    }
  }

  ghost predicate Accounted<T>(c: Codec<T>, ms: seq<T>, pending: seq<Byte>, run: ReadRun<T>) {
    && Delivered(run.results) <= ms
    && Frames(c, Delivered(run.results)) + run.pending == pending + run.taken
    && forall i :: 0 <= i < |run.results| ==> Benign(run.results[i])
  }

  lemma AccountedCons<T>(c: Codec<T>, ms: seq<T>, pending: seq<Byte>, taken: seq<Byte>, r: ReadResult<T>,
      rest: seq<Byte>, run: ReadRun<T>)
    requires Benign(r)
    requires if r.Message? then ms != [] && r.msg == ms[0] && pending + taken == Frame(c, ms[0]) + rest
             && Accounted(c, ms[1..], rest, run)
             else rest == pending + taken && Accounted(c, ms, rest, run)
    ensures Accounted(c, ms, pending, ReadRun([r] + run.results, run.pending, taken + run.taken))
  {
    var d := Delivered(run.results);
    var results := [r] + run.results;
    assert results[1..] == run.results;
    assert pending + (taken + run.taken) == (pending + taken) + run.taken;
    if r.Message? {
      assert ([ms[0]] + d)[1..] == d;
      assert [ms[0]] + d <= [ms[0]] + ms[1..] == ms;
      assert Frames(c, [ms[0]] + d) == Frame(c, ms[0]) + Frames(c, d);
      calc {
        Frames(c, [ms[0]] + d) + run.pending;
        Frame(c, ms[0]) + (Frames(c, d) + run.pending);
        Frame(c, ms[0]) + (rest + run.taken);
        (pending + taken) + run.taken;
      }
    } else {
      assert Delivered(results) == d;
    }
  }

  /** Once every byte has been taken and the last call found nothing more, every message is out. */
  lemma ReadsDeliverAll<T(!new)>(c: Codec<T>, ms: seq<T>, calls: seq<seq<ReadOutcome>>)
    requires SelfDelimiting(c) && AllSendable(c, ms) && calls != []
    requires Reads(c, [], calls).taken == Frames(c, ms)
    requires Reads(c, [], calls).results[|calls| - 1] in {Nothing, Failed(ZeroByteRead)}
    ensures Delivered(Reads(c, [], calls).results) == ms
    ensures Reads(c, [], calls).pending == []
  {
    var run := Reads(c, [], calls);
    assert [] + run.taken == run.taken;
    ReadsDeliver(c, ms, [], calls);
    LastCallDrained(c, [], calls);
    NothingLeft(c, ms, Delivered(run.results), run.pending);
  }

  lemma NothingLeft<T(!new)>(c: Codec<T>, ms: seq<T>, d: seq<T>, pending: seq<Byte>)
    requires SelfDelimiting(c) && AllSendable(c, ms) && d <= ms
    requires Frames(c, d) + pending == Frames(c, ms) && Parse(c, pending).Incomplete?
    ensures d == ms && pending == []
  {
    var tail := ms[|d|..];
    assert ms == d + tail;
    FramesAppend(c, d, tail);
    assert pending == (Frames(c, d) + pending)[|Frames(c, d)|..];
    assert Frames(c, tail) == (Frames(c, d) + Frames(c, tail))[|Frames(c, d)|..];
    ParsePrefixOfFrames(c, tail, pending);
  }

  lemma {:induction false} LastCallDrained<T>(c: Codec<T>, pending: seq<Byte>, calls: seq<seq<ReadOutcome>>)
    requires calls != []
    requires Reads(c, pending, calls).results[|calls| - 1] in {Nothing, Failed(ZeroByteRead)}
    ensures Parse(c, Reads(c, pending, calls).pending).Incomplete?
    decreases |calls|
  {
    var (r, rest) := ReadCall(c, pending, calls[0]);
    if |calls| == 1 {
      NoFrameLeftBehind(c, pending, calls[0]);
      assert Reads(c, pending, calls).results == [r] + Reads(c, rest, calls[1..]).results;
    } else {
      var run' := Reads(c, rest, calls[1..]);
      assert Reads(c, pending, calls).results == [r] + run'.results;
      LastCallDrained(c, rest, calls[1..]);
    }
  }
}
