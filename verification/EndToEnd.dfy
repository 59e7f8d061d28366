/** Writer on one side, reader on the other, nothing assumed of either stream's timing. */
module EndToEnd {
  import opened Framing
  import opened Reading
  import opened Writing
  import opened WriterRuns

  lemma MsgsPrefix<T>(es: seq<Entry<T>>, n: nat)
    requires n <= |es|
    ensures Msgs(es[..n]) == Msgs(es)[..n]
  {
  }

  /** The stream has accepted all of the transmitted frames and a proper part of the next. */
  lemma WireCoversTransmitted<T>(c: Codec<T>, w: Writer<T>)
    requires Inv(c, w)
    ensures Frames(c, Msgs(Transmitted(w))) <= w.wire <= Frames(c, Msgs(w.started))
    ensures w.current.Some? ==> |w.wire| < |Frames(c, Msgs(w.started))|
    ensures w.current.None? ==> w.wire == Frames(c, Msgs(Transmitted(w)))
  {
    assert w.wire <= w.wire + Unsent(w);
    if w.current.Some? {
      var n := |w.started| - 1;
      var e := w.started[n];
      var before := Msgs(w.started)[..n];
      MsgsPrefix(w.started, n);
      assert Msgs(w.started) == before + [e.msg];
      FramesAppend(c, before, [e.msg]);
      assert Frames(c, [e.msg]) == Frame(c, e.msg) + Frames(c, []) == Frame(c, e.msg);
      assert Known(w, e) && e.data == Frame(c, e.msg);
      assert |Frames(c, before)| + |e.data| == |w.wire| + |w.current.value|;
      assert Frames(c, before) == (w.wire + Unsent(w))[..|Frames(c, before)|] == w.wire[..|Frames(c, before)|];
    } else {
      assert w.wire + [] == w.wire;
    }
  }

  /** What is left of the wire after the frames of `d` begins the frames of the rest. */
  lemma TailPending<T(!new)>(c: Codec<T>, d: seq<T>, tail: seq<T>, wire: seq<Byte>, pending: seq<Byte>)
    requires Frames(c, d) + pending == wire && wire <= Frames(c, d + tail)
    ensures pending <= Frames(c, tail)
  {
    FramesAppend(c, d, tail);
    assert pending == wire[|Frames(c, d)|..] && Frames(c, tail) == Frames(c, d + tail)[|Frames(c, d)|..];
  }

  /** For every run of the writer, with any priorities, partial writes and drops, and every chunking
      of what the stream carried: the reader's calls return, in the order transmission began, only
      messages that were transmitted whole; and once it has had all the bytes and finds no more, it
      has returned every one of them. */
  lemma DeliveredAreTransmitted<T(!new)>(
    c: Codec<T>, ws: seq<Writer<T>>, steps: seq<WriteStep<T>>, calls: seq<seq<ReadOutcome>>)
    requires SelfDelimiting(c) && IsRun(c, ws, steps)
    requires AllSendable(c, Msgs(ws[|steps|].started))
    requires Reads(c, [], calls).taken <= ws[|steps|].wire
    ensures Delivered(Reads(c, [], calls).results) <= Msgs(Transmitted(ws[|steps|]))
    ensures Reads(c, [], calls).taken == ws[|steps|].wire && calls != []
            && Reads(c, [], calls).results[|calls| - 1] in {Nothing, Failed(ZeroByteRead)}
            ==> Delivered(Reads(c, [], calls).results) == Msgs(Transmitted(ws[|steps|]))
  {
    var w := ws[|steps|];
    var run := Reads(c, [], calls);
    var ms := Msgs(w.started);
    RunKeepsInv(c, ws, steps, |steps|);
    WireCoversTransmitted(c, w);
    assert [] + run.taken == run.taken;
    ReadsDeliver(c, ms, [], calls);
    var d := Delivered(run.results);
    assert Frames(c, d) + run.pending == run.taken;
    WholeOnly(c, w, d);
    if run.taken == w.wire && calls != [] && run.results[|calls| - 1] in {Nothing, Failed(ZeroByteRead)} {
      LastCallDrained(c, [], calls);
      AllOut(c, w, d, run.pending);
    }
  }

  lemma WholeOnly<T>(c: Codec<T>, w: Writer<T>, d: seq<T>)
    requires Inv(c, w) && d <= Msgs(w.started) && |Frames(c, d)| <= |w.wire|
    ensures d <= Msgs(Transmitted(w))
  {
    WireCoversTransmitted(c, w);
    if w.current.Some? {
      MsgsPrefix(w.started, |w.started| - 1);
      assert d != Msgs(w.started);
    }
  }

  lemma AllOut<T(!new)>(c: Codec<T>, w: Writer<T>, d: seq<T>, pending: seq<Byte>)
    requires SelfDelimiting(c) && Inv(c, w) && AllSendable(c, Msgs(w.started))
    requires d <= Msgs(Transmitted(w)) && Frames(c, d) + pending == w.wire && Parse(c, pending).Incomplete?
    ensures d == Msgs(Transmitted(w))
  {
    var tx := Msgs(Transmitted(w));
    var ms := Msgs(w.started);
    WireCoversTransmitted(c, w);
    assert tx == ms[..|tx|] by {
      MsgsPrefix(w.started, |Transmitted(w)|);
      assert Transmitted(w) == w.started[..|Transmitted(w)|];
    }
    if |d| < |tx| {
      OneMoreWhole(c, ms, tx, d, w.wire, pending);
    }
  }

  /** While a transmitted message is missing, its whole frame is pending. */
  lemma OneMoreWhole<T(!new)>(c: Codec<T>, ms: seq<T>, tx: seq<T>, d: seq<T>, wire: seq<Byte>, pending: seq<Byte>)
    requires SelfDelimiting(c) && AllSendable(c, ms) && d < tx <= ms
    requires Frames(c, d) + pending == wire && Frames(c, tx) <= wire <= Frames(c, ms)
    ensures Parse(c, pending).Complete?
  {
    var tail, txTail := ms[|d|..], tx[|d|..];
    assert ms == d + tail && tx == d + txTail && txTail[0] == tail[0];
    TailPending(c, d, tail, wire, pending);
    FramesAppend(c, d, txTail);
    ParsePrefixOfFrames(c, tail, pending);
  }
}
