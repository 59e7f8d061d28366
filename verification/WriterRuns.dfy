/** What every run of a writer keeps: order, conservation, whole frames, the drop rule. */
module WriterRuns {
  import opened Options
  import opened Framing
  import opened Writing

  // ----- The invariant -----

  /** An entry of the history, unchanged since it was written. */
  ghost predicate Known<T>(w: Writer<T>, e: Entry<T>) {
    e.id < |w.enqueued| && w.enqueued[e.id] == e
  }

  ghost predicate HistoryOk<T>(c: Codec<T>, w: Writer<T>) {
    forall i :: 0 <= i < |w.enqueued| ==>
      w.enqueued[i].id == i && w.enqueued[i].data == Frame(c, w.enqueued[i].msg) && w.enqueued[i].time <= w.clock
  }

  /** Non-empty, in write order, so oldest first. */
  ghost predicate QueueOk<T>(w: Writer<T>, p: Priority)
    requires p in w.queue
  {
    var es := w.queue[p];
    && es != []
    && (forall k :: 0 <= k < |es| ==> Known(w, es[k]) && es[k].prio == p)
    && (forall j, k :: 0 <= j < k < |es| ==> es[j].id < es[k].id && es[j].time <= es[k].time)
  }

  ghost predicate QueuesOk<T>(w: Writer<T>) {
    forall p :: p in w.queue ==> QueueOk(w, p)
  }

  /** Everything of priority `p` that left its queue was written before anything still in it. */
  ghost predicate Before<T>(w: Writer<T>, e: Entry<T>) {
    e.prio in w.queue ==> forall k :: 0 <= k < |w.queue[e.prio]| ==> e.id < w.queue[e.prio][k].id
  }

  ghost predicate StartedOk<T>(w: Writer<T>) {
    && (forall i :: 0 <= i < |w.started| ==> Known(w, w.started[i]) && Before(w, w.started[i]))
    && (forall i, j :: 0 <= i < j < |w.started| ==> w.started[i].id != w.started[j].id)
    && (forall i, j :: 0 <= i < j < |w.started| && w.started[i].prio == w.started[j].prio ==>
          w.started[i].id < w.started[j].id)
  }

  ghost predicate DroppedOk<T>(w: Writer<T>) {
    && (forall i :: i in w.dropped ==> i < |w.enqueued| && Before(w, w.enqueued[i]))
    && (forall i :: 0 <= i < |w.started| ==> w.started[i].id !in w.dropped)
  }

  ghost predicate Queued<T>(q: Queue<T>, e: Entry<T>) {
    e.prio in q && e in q[e.prio]
  }

  ghost predicate NoneLost<T>(w: Writer<T>) {
    forall i :: 0 <= i < |w.enqueued| ==> w.enqueued[i] in w.started || Queued(w.queue, w.enqueued[i]) || i in w.dropped
  }

  function Msgs<T>(es: seq<Entry<T>>): seq<T> {
    seq(|es|, i requires 0 <= i < |es| => es[i].msg)
  }

  function Unsent<T>(w: Writer<T>): seq<Byte> {
    if w.current.Some? then w.current.value else []
  }

  /** The stream holds whole frames, one after another, except that the last one may still have
      its `current` part to come. */
  ghost predicate WholeFrames<T>(c: Codec<T>, w: Writer<T>) {
    w.wire + Unsent(w) == Frames(c, Msgs(w.started))
  }

  ghost predicate CurrentOk<T>(w: Writer<T>) {
    w.current.Some? ==>
      && w.started != []
      && 0 < |w.current.value| <= |w.started[|w.started| - 1].data|
  }

  /** Unsent bytes always have a write event scheduled. */
  ghost predicate WakeUp<T>(w: Writer<T>) {
    w.current.Some? || w.queue != map[] ==> w.armed
  }

  ghost predicate Ordered<T>(c: Codec<T>, w: Writer<T>) {
    HistoryOk(c, w) && QueuesOk(w) && StartedOk(w) && DroppedOk(w) && NoneLost(w)
  }

  ghost predicate Inv<T>(c: Codec<T>, w: Writer<T>) {
    Ordered(c, w) && WholeFrames(c, w) && CurrentOk(w) && WakeUp(w)
  }

  // ----- Each part of a call keeps the order -----

  lemma DroppedLeaves<T>(w: Writer<T>, now: Times, i: nat)
    requires QueuesOk(w) && StartedOk(w) && DroppedOk(w) && i in Discarded(w.queue, now)
    ensures i < |w.enqueued| && w.enqueued[i].prio !in Surviving(w.queue, now)
    ensures i !in w.dropped && forall k :: 0 <= k < |w.started| ==> w.started[k].id != i
  {
    var p, k :| p in w.queue && !Kept(w.queue, now, p) && 0 <= k < |w.queue[p]| && w.queue[p][k].id == i;
    assert QueueOk(w, p) && Known(w, w.queue[p][k]);
  }

  lemma DropLosesNone<T>(c: Codec<T>, w: Writer<T>, now: Times)
    requires HistoryOk(c, w) && NoneLost(w)
    ensures NoneLost(DropStale(w, now))
  {
    var w' := DropStale(w, now);
    forall i | 0 <= i < |w.enqueued|
      ensures w.enqueued[i] in w'.started || Queued(w'.queue, w.enqueued[i]) || i in w'.dropped
    {
      var e := w.enqueued[i];
      if Queued(w.queue, e) && !Kept(w.queue, now, e.prio) {
        var k :| 0 <= k < |w.queue[e.prio]| && w.queue[e.prio][k] == e;
        assert i in Discarded(w.queue, now);
      }
    }
  }

  lemma DropKeepsQueues<T>(w: Writer<T>, now: Times)
    requires QueuesOk(w) && StartedOk(w)
    ensures QueuesOk(DropStale(w, now)) && StartedOk(DropStale(w, now))
  {
    var w' := DropStale(w, now);
    forall p | p in w'.queue ensures QueueOk(w', p) { assert QueueOk(w, p); }
  }

  lemma DropKeeps<T>(c: Codec<T>, w: Writer<T>, now: Times)
    requires Ordered(c, w) && InOrder(w.clock, now)
    ensures Ordered(c, DropStale(w, now))
  {
    DropKeepsQueues(w, now);
    DropLosesNone(c, w, now);
    DropKeepsDropped(w, now);
    assert HistoryOk(c, DropStale(w, now)) by { assert w.clock <= now.looked(0) <= now.stamped; }
  }

  lemma DropKeepsDropped<T>(w: Writer<T>, now: Times)
    requires QueuesOk(w) && StartedOk(w) && DroppedOk(w)
    ensures DroppedOk(DropStale(w, now))
  {
    var w' := DropStale(w, now);
    forall i | i in w'.dropped ensures i < |w'.enqueued| && Before(w', w'.enqueued[i]) {
      if i in Discarded(w.queue, now) { DroppedLeaves(w, now, i); } else { assert Before(w, w.enqueued[i]); }
    }
    forall k | 0 <= k < |w.started| ensures w.started[k].id !in w'.dropped {
      if w.started[k].id in Discarded(w.queue, now) { DroppedLeaves(w, now, w.started[k].id); }
    }
  }

  lemma EnqueueKeepsQueues<T>(c: Codec<T>, w: Writer<T>, m: T, p: Priority)
    requires HistoryOk(c, w) && QueuesOk(w)
    ensures HistoryOk(c, Enqueue(c, w, m, p)) && QueuesOk(Enqueue(c, w, m, p))
  {
    var w' := Enqueue(c, w, m, p);
    forall q | q in w'.queue ensures QueueOk(w', q) {
      if q in w.queue { assert QueueOk(w, q); }
    }
  }

  lemma EnqueueKeepsBefore<T>(c: Codec<T>, w: Writer<T>, m: T, p: Priority, e: Entry<T>)
    requires Known(w, e) && Before(w, e)
    ensures Known(Enqueue(c, w, m, p), e) && Before(Enqueue(c, w, m, p), e)
  {
  }

  lemma EnqueueKeepsRest<T>(c: Codec<T>, w: Writer<T>, m: T, p: Priority)
    requires Ordered(c, w)
    ensures var w' := Enqueue(c, w, m, p); StartedOk(w') && DroppedOk(w')
  {
    var w' := Enqueue(c, w, m, p);
    forall i | 0 <= i < |w.started| ensures Known(w', w.started[i]) && Before(w', w.started[i]) {
      EnqueueKeepsBefore(c, w, m, p, w.started[i]);
    }
    forall i | i in w.dropped ensures i < |w'.enqueued| && Before(w', w'.enqueued[i]) {
      EnqueueKeepsBefore(c, w, m, p, w.enqueued[i]);
    }
  }

  lemma EnqueueLosesNone<T>(c: Codec<T>, w: Writer<T>, m: T, p: Priority)
    requires NoneLost(w)
    ensures NoneLost(Enqueue(c, w, m, p))
  {
    var w' := Enqueue(c, w, m, p);
    forall i | 0 <= i < |w'.enqueued|
      ensures w'.enqueued[i] in w'.started || Queued(w'.queue, w'.enqueued[i]) || i in w'.dropped
    {
      var e := w'.enqueued[i];
      if i == |w.enqueued| {
        assert w'.queue[p][|w'.queue[p]| - 1] == e;
      } else if Queued(w.queue, e) {
        var k :| 0 <= k < |w.queue[e.prio]| && w.queue[e.prio][k] == e;
        assert w'.queue[e.prio][k] == e;
      }
    }
  }

  lemma EnqueueKeeps<T>(c: Codec<T>, w: Writer<T>, m: T, p: Priority)
    requires Ordered(c, w)
    ensures Ordered(c, Enqueue(c, w, m, p))
  {
    EnqueueKeepsQueues(c, w, m, p);
    EnqueueKeepsRest(c, w, m, p);
    EnqueueLosesNone(c, w, m, p);
  }

  /** The picked entry is the head of the queue of the smallest priority value. */
  lemma PickKeepsQueues<T>(w: Writer<T>)
    requires QueuesOk(w) && w.queue != map[] && NoEmptyQueue(w.queue)
    ensures QueuesOk(Pick(w))
    ensures var e := w.queue[Least(w.queue)][0]; Known(Pick(w), e) && Before(Pick(w), e)
  {
    var w' := Pick(w);
    assert QueueOk(w, Least(w.queue));
    forall q | q in w'.queue ensures QueueOk(w', q) {
      assert QueueOk(w, q);
    }
  }

  lemma PickKeepsBefore<T>(w: Writer<T>, e: Entry<T>)
    requires w.queue != map[] && NoEmptyQueue(w.queue) && Before(w, e)
    ensures Before(Pick(w), e)
  {
  }

  lemma PickKeepsStarted<T>(w: Writer<T>)
    requires QueuesOk(w) && StartedOk(w) && DroppedOk(w) && w.queue != map[] && NoEmptyQueue(w.queue)
    ensures StartedOk(Pick(w)) && DroppedOk(Pick(w))
  {
    var w' := Pick(w);
    var p := Least(w.queue);
    var e := w.queue[p][0];
    assert QueueOk(w, p) && Known(w, e) && e.prio == p;
    PickKeepsQueues(w);
    forall i | 0 <= i < |w.started|
      ensures Known(w', w.started[i]) && Before(w', w.started[i])
      ensures w.started[i].id != e.id && (w.started[i].prio == p ==> w.started[i].id < e.id)
    {
      assert Before(w, w.started[i]);
      PickKeepsBefore(w, w.started[i]);
    }
    forall i | i in w.dropped ensures Before(w', w'.enqueued[i]) && i != e.id {
      assert Before(w, w.enqueued[i]);
      PickKeepsBefore(w, w.enqueued[i]);
    }
  }

  lemma PickLosesNone<T>(w: Writer<T>)
    requires QueuesOk(w) && NoneLost(w) && w.queue != map[] && NoEmptyQueue(w.queue)
    ensures NoneLost(Pick(w))
  {
    var w' := Pick(w);
    var p := Least(w.queue);
    var es := w.queue[p];
    assert es[0] == w'.started[|w.started|];
    forall i | 0 <= i < |w.enqueued|
      ensures w.enqueued[i] in w'.started || Queued(w'.queue, w.enqueued[i]) || i in w'.dropped
    {
      var e := w.enqueued[i];
      if e in w.started {
        var k :| 0 <= k < |w.started| && w.started[k] == e;
        assert w'.started[k] == e;
      } else if Queued(w.queue, e) && e.prio == p && e != es[0] {
        var k :| 0 <= k < |es| && es[k] == e;
        assert es[1..][k - 1] == e;
      }
    }
  }

  lemma PickKeeps<T>(c: Codec<T>, w: Writer<T>)
    requires Ordered(c, w) && w.queue != map[] && NoEmptyQueue(w.queue)
    ensures Ordered(c, Pick(w))
  {
    PickKeepsQueues(w);
    PickKeepsStarted(w);
    PickLosesNone(w);
  }

  // ----- One call keeps the invariant -----

  ghost predicate Framed<T>(c: Codec<T>, w: Writer<T>) {
    Ordered(c, w) && WholeFrames(c, w) && CurrentOk(w)
  }

  lemma OrderedNoEmptyQueue<T>(c: Codec<T>, w: Writer<T>)
    requires Ordered(c, w)
    ensures NoEmptyQueue(w.queue)
  {
    forall p | p in w.queue ensures w.queue[p] != [] { assert QueueOk(w, p); }
  }

  lemma PickKeepsFrames<T>(c: Codec<T>, w: Writer<T>)
    requires Framed(c, w) && w.current.None? && w.queue != map[] && NoEmptyQueue(w.queue)
    ensures WholeFrames(c, Pick(w)) && CurrentOk(Pick(w))
  {
    var w' := Pick(w);
    var p := Least(w.queue);
    var e := w.queue[p][0];
    assert QueueOk(w, p) && Known(w, e);
    assert Msgs(w'.started) == Msgs(w.started) + [e.msg];
    FramesAppend(c, Msgs(w.started), [e.msg]);
    assert Frames(c, [e.msg]) == Frame(c, e.msg) + Frames(c, []);
    assert w.wire + [] == w.wire;
  }

  lemma DropKeepsFramed<T>(c: Codec<T>, w: Writer<T>, now: Times)
    requires Framed(c, w) && InOrder(w.clock, now)
    ensures Framed(c, DropStale(w, now))
  {
    DropKeeps(c, w, now);
  }

  lemma EnqueueKeepsFramed<T>(c: Codec<T>, w: Writer<T>, m: T, p: Priority)
    requires Framed(c, w)
    ensures Framed(c, Enqueue(c, w, m, p))
  {
    EnqueueKeeps(c, w, m, p);
  }

  lemma ArriveKeeps<T>(c: Codec<T>, w: Writer<T>, now: Times, msg: Option<(T, Priority)>)
    requires Framed(c, w) && InOrder(w.clock, now)
    ensures var w1 := DropStale(w, now);
            Framed(c, if msg.Some? then Enqueue(c, w1, msg.value.0, msg.value.1) else w1)
  {
    DropKeepsFramed(c, w, now);
    if msg.Some? { EnqueueKeepsFramed(c, DropStale(w, now), msg.value.0, msg.value.1); }
  }

  lemma PickKeepsFramed<T>(c: Codec<T>, w: Writer<T>)
    requires Framed(c, w) && w.current.None? && w.queue != map[] && NoEmptyQueue(w.queue)
    ensures Framed(c, Pick(w))
  {
    PickKeeps(c, w);
    PickKeepsFrames(c, w);
  }

  lemma BeforeTransmitKeeps<T>(c: Codec<T>, w: Writer<T>, now: Times, msg: Option<(T, Priority)>)
    requires Framed(c, w) && NoEmptyQueue(w.queue) && InOrder(w.clock, now)
    ensures Framed(c, BeforeTransmit(c, w, now, msg))
  {
    ArriveKeeps(c, w, now, msg);
    var w1 := DropStale(w, now);
    var w2 := if msg.Some? then Enqueue(c, w1, msg.value.0, msg.value.1) else w1;
    if w2.current.None? && w2.queue != map[] {
      OrderedNoEmptyQueue(c, w2);
      PickKeepsFramed(c, w2);
    }
  }

  /** The order speaks only of queues and history. */
  lemma OrderedFrame<T>(c: Codec<T>, w: Writer<T>, w': Writer<T>)
    requires Ordered(c, w)
    requires w'.queue == w.queue && w'.clock == w.clock && w'.enqueued == w.enqueued
    requires w'.started == w.started && w'.dropped == w.dropped
    ensures Ordered(c, w')
  {
    forall p | p in w.queue ensures QueueOk(w', p) { assert QueueOk(w, p); }
    forall i | 0 <= i < |w.started| ensures Known(w', w.started[i]) && Before(w', w.started[i]) {
      assert Known(w, w.started[i]) && Before(w, w.started[i]);
    }
    forall i | i in w.dropped ensures Before(w', w'.enqueued[i]) { assert Before(w, w.enqueued[i]); }
  }

  lemma TransmitKeeps<T>(c: Codec<T>, w: Writer<T>, out: WriteOutcome, registered: bool)
    requires Framed(c, w) && w.current.Some?
    requires out.Accepted? ==> out.count <= |w.current.value|
    requires !out.Fatal?
    ensures Framed(c, Transmit(w, out, registered).0)
  {
    OrderedFrame(c, w, Transmit(w, out, registered).0);
    BytesMove(w, out, registered);
  }

  /** Bytes only move from the frame being sent to the stream. */
  lemma BytesMove<T>(w: Writer<T>, out: WriteOutcome, registered: bool)
    requires w.current.Some? && !out.Fatal? && (out.Accepted? ==> out.count <= |w.current.value|)
    ensures var w' := Transmit(w, out, registered).0;
            w'.wire + Unsent(w') == w.wire + Unsent(w) && |Unsent(w')| <= |Unsent(w)|
  {
    var data := w.current.value;
    if out.Accepted? {
      var sent, rest := data[..out.count], data[out.count..];
      assert data == sent + rest;
      assert (w.wire + sent) + rest == w.wire + data;
      assert out.count == |data| ==> rest == [];
    }
  }

  lemma WriteCallKeeps<T>(c: Codec<T>, w: Writer<T>, now: Times, msg: Option<(T, Priority)>, out: WriteOutcome,
      registered: bool)
    requires Inv(c, w) && NoEmptyQueue(w.queue) && Offerable(c, w, now, msg, out) && InOrder(w.clock, now)
    requires !out.Fatal? && registered
    ensures Inv(c, WriteCall(c, w, now, msg, out, registered).0)
  {
    BeforeTransmitKeeps(c, w, now, msg);
    var w' := BeforeTransmit(c, w, now, msg);
    if w'.current.Some? {
      TransmitKeeps(c, w', out, registered);
    }
  }

  /** A fatal stream error throws away the rest of the frame being sent: the bytes accepted so far
      are still whole frames if and only if the error was not fatal. So a socket that failed must
      not be written to again. */
  lemma FatalTearsTheFrame<T>(c: Codec<T>, w: Writer<T>, now: Times, msg: Option<(T, Priority)>, out: WriteOutcome,
      registered: bool)
    requires Inv(c, w) && NoEmptyQueue(w.queue) && Offerable(c, w, now, msg, out) && InOrder(w.clock, now)
    requires BeforeTransmit(c, w, now, msg).current.Some?
    ensures WholeFrames(c, WriteCall(c, w, now, msg, out, registered).0) <==> !out.Fatal?
  {
    BeforeTransmitKeeps(c, w, now, msg);
    var w' := BeforeTransmit(c, w, now, msg);
    if out.Fatal? {
      assert |w'.wire + []| != |w'.wire + w'.current.value|;
    } else {
      TransmitKeeps(c, w', out, registered);
    }
  }

  // ----- Runs -----

  datatype WriteStep<+T> = WriteStep(now: Times, msg: Option<(T, Priority)>, out: WriteOutcome)

  /** A call on a working socket: the clock does not go back, the stream accepts no more than it is
      offered, and neither stream nor poll fails for good. */
  ghost predicate Calls<T>(c: Codec<T>, w: Writer<T>, s: WriteStep<T>, w': Writer<T>) {
    && NoEmptyQueue(w.queue)
    && InOrder(w.clock, s.now)
    && !s.out.Fatal?
    && Offerable(c, w, s.now, s.msg, s.out)
    && w' == WriteCall(c, w, s.now, s.msg, s.out, true).0
  }

  ghost predicate IsRun<T>(c: Codec<T>, ws: seq<Writer<T>>, steps: seq<WriteStep<T>>) {
    && |ws| == |steps| + 1
    && ws[0] == NewWriter()
    && forall i :: 0 <= i < |steps| ==> Calls(c, ws[i], steps[i], ws[i + 1])
  }

  lemma NewWriterInv<T>(c: Codec<T>)
    ensures Inv(c, NewWriter<T>())
  {
    assert Msgs<T>([]) == [];
  }

  lemma {:induction false} RunKeepsInv<T>(c: Codec<T>, ws: seq<Writer<T>>, steps: seq<WriteStep<T>>, i: nat)
    requires IsRun(c, ws, steps) && i < |ws|
    ensures Inv(c, ws[i])
    decreases i
  {
    if i == 0 {
      NewWriterInv(c);
    } else {
      RunKeepsInv(c, ws, steps, i - 1);
      assert Calls(c, ws[i - 1], steps[i - 1], ws[i]);
      var s := steps[i - 1];
      WriteCallKeeps(c, ws[i - 1], s.now, s.msg, s.out, true);
    }
  }

  // ----- What the invariant means -----

  /** Entries all of whose bytes the stream has accepted. */
  function Transmitted<T>(w: Writer<T>): seq<Entry<T>> {
    if w.current.Some? && w.started != [] then w.started[..|w.started| - 1] else w.started
  }

  datatype Fate = WasTransmitted | IsCurrent | IsQueued | WasDropped

  ghost predicate Suffers<T>(w: Writer<T>, e: Entry<T>, f: Fate) {
    match f
    case WasTransmitted => e in Transmitted(w)
    case IsCurrent => w.current.Some? && w.started != [] && e == w.started[|w.started| - 1]
    case IsQueued => Queued(w.queue, e)
    case WasDropped => e.id in w.dropped
  }

  /** The messages that calls were given, with their priority and the time they were given. */
  function Given<T>(steps: seq<WriteStep<T>>): seq<(T, Priority, nat)> {
    if steps == [] then []
    else
      var s := steps[|steps| - 1];
      Given(steps[..|steps| - 1]) + (if s.msg.Some? then [(s.msg.value.0, s.msg.value.1, s.now.stamped)] else [])
  }

  /** A call records the message it is given, if any, and nothing else. */
  lemma CallRecords<T>(c: Codec<T>, w: Writer<T>, s: WriteStep<T>, w': Writer<T>)
    requires Calls(c, w, s, w')
    ensures s.msg.None? ==> w'.enqueued == w.enqueued
    ensures s.msg.Some? ==>
              && |w'.enqueued| == |w.enqueued| + 1 && w.enqueued <= w'.enqueued
              && var e := w'.enqueued[|w.enqueued|];
                 e.msg == s.msg.value.0 && e.prio == s.msg.value.1 && e.time == s.now.stamped
                     && e.data == Frame(c, s.msg.value.0)
  {
  }

  /** In every run the history is exactly the messages the calls were given, in order. */
  lemma {:induction false} AllRecorded<T>(c: Codec<T>, ws: seq<Writer<T>>, steps: seq<WriteStep<T>>, n: nat)
    requires IsRun(c, ws, steps) && n < |ws|
    ensures |ws[n].enqueued| == |Given(steps[..n])|
    ensures forall i :: 0 <= i < |ws[n].enqueued| ==>
              var e := ws[n].enqueued[i]; (e.msg, e.prio, e.time) == Given(steps[..n])[i]
    decreases n
  {
    if n > 0 {
      AllRecorded(c, ws, steps, n - 1);
      assert Calls(c, ws[n - 1], steps[n - 1], ws[n]);
      CallRecords(c, ws[n - 1], steps[n - 1], ws[n]);
      assert steps[..n][..n - 1] == steps[..n - 1] && steps[..n][n - 1] == steps[n - 1];
    }
  }

  lemma {:induction false} GivenGrows<T>(steps: seq<WriteStep<T>>, j: nat, n: nat)
    requires j < n <= |steps| && steps[j].msg.Some?
    ensures |Given(steps[..j])| < |Given(steps[..n])|
    ensures var s := steps[j];
            Given(steps[..n])[|Given(steps[..j])|] == (s.msg.value.0, s.msg.value.1, s.now.stamped)
    decreases n
  {
    assert steps[..n][..n - 1] == steps[..n - 1] && steps[..n][n - 1] == steps[n - 1];
    if j < n - 1 { GivenGrows(steps, j, n - 1); }
  }

  /** Every message that any call was given is, as it was given, exactly one of transmitted, being sent,
      queued or dropped. */
  lemma OneFateEach<T>(c: Codec<T>, ws: seq<Writer<T>>, steps: seq<WriteStep<T>>, n: nat, j: nat)
    requires IsRun(c, ws, steps) && j < n < |ws| && steps[j].msg.Some?
    ensures var i, s := |Given(steps[..j])|, steps[j];
            && i < |ws[n].enqueued|
            && var e := ws[n].enqueued[i];
               && e.id == i && e.msg == s.msg.value.0 && e.prio == s.msg.value.1 && e.time == s.now.stamped
               && (exists f :: Suffers(ws[n], e, f))
               && forall f, g :: Suffers(ws[n], e, f) && Suffers(ws[n], e, g) ==> f == g
  {
    AllRecorded(c, ws, steps, n);
    GivenGrows(steps, j, n);
    RunKeepsInv(c, ws, steps, n);
    FateOfEntry(c, ws, steps, n, |Given(steps[..j])|);
  }

  lemma FateOfEntry<T>(c: Codec<T>, ws: seq<Writer<T>>, steps: seq<WriteStep<T>>, n: nat, i: nat)
    requires IsRun(c, ws, steps) && n < |ws| && i < |ws[n].enqueued|
    ensures exists f :: Suffers(ws[n], ws[n].enqueued[i], f)
    ensures forall f, g :: Suffers(ws[n], ws[n].enqueued[i], f) && Suffers(ws[n], ws[n].enqueued[i], g) ==> f == g
  {
    RunKeepsInv(c, ws, steps, n);
    var w := ws[n];
    var e := w.enqueued[i];
    StartedOrNot(w, e);
    assert e.id == i;
    assert e in w.started || Queued(w.queue, e) || i in w.dropped;
    if e in w.started {
      assert Suffers(w, e, WasTransmitted) || Suffers(w, e, IsCurrent);
      assert Before(w, e) && i !in w.dropped;
    } else if Queued(w.queue, e) {
      assert Suffers(w, e, IsQueued);
      if i in w.dropped { assert Before(w, e); }
    } else {
      assert Suffers(w, e, WasDropped);
    }
    assert Queued(w.queue, e) ==> !Before(w, e) by {
      if Queued(w.queue, e) {
        var k :| 0 <= k < |w.queue[e.prio]| && w.queue[e.prio][k] == e;
      }
    }
  }

  lemma StartedOrNot<T>(w: Writer<T>, e: Entry<T>)
    requires StartedOk(w) && CurrentOk(w)
    ensures e in w.started <==> (Suffers(w, e, WasTransmitted) || Suffers(w, e, IsCurrent))
    ensures !(Suffers(w, e, WasTransmitted) && Suffers(w, e, IsCurrent))
  {
    if w.current.Some? {
      var n := |w.started| - 1;
      assert w.started == w.started[..n] + [w.started[n]];
      if e in w.started[..n] {
        var k :| 0 <= k < n && w.started[..n][k] == e;
        assert w.started[k].id != w.started[n].id;
      }
    }
  }

  /** Messages of one priority leave in the order they were written. */
  lemma OrderWithinPriority<T>(c: Codec<T>, ws: seq<Writer<T>>, steps: seq<WriteStep<T>>, n: nat, i: nat, j: nat)
    requires IsRun(c, ws, steps) && n < |ws| && i < j < |Transmitted(ws[n])|
    requires Transmitted(ws[n])[i].prio == Transmitted(ws[n])[j].prio
    ensures Transmitted(ws[n])[i].id < Transmitted(ws[n])[j].id
  {
    RunKeepsInv(c, ws, steps, n);
    assert Transmitted(ws[n])[i] == ws[n].started[i] && Transmitted(ws[n])[j] == ws[n].started[j];
  }

  /** A call begins at most one frame, and only when none is under way; the frame it begins has the
      smallest priority value of everything waiting at that moment, and is the oldest of those. */
  lemma PickIsBest<T>(c: Codec<T>, ws: seq<Writer<T>>, steps: seq<WriteStep<T>>, n: nat)
    requires IsRun(c, ws, steps) && n < |steps|
    ensures var w, w' := ws[n], ws[n + 1];
            || w'.started == w.started
            || (&& w.current.None?
                && |w'.started| == |w.started| + 1 && w.started <= w'.started
                && var e := w'.started[|w.started|];
                   forall p, k :: p in w'.queue && 0 <= k < |w'.queue[p]| ==>
                     e.prio < p || (e.prio == p && e.id < w'.queue[p][k].id))
  {
    var w, s := ws[n], steps[n];
    RunKeepsInv(c, ws, steps, n);
    assert Calls(c, w, s, ws[n + 1]);
    var w1 := DropStale(w, s.now);
    DropKeeps(c, w, s.now);
    var w2 := if s.msg.Some? then Enqueue(c, w1, s.msg.value.0, s.msg.value.1) else w1;
    if s.msg.Some? { EnqueueKeeps(c, w1, s.msg.value.0, s.msg.value.1); }
    if w2.current.None? && w2.queue != map[] {
      OrderedNoEmptyQueue(c, w2);
      PickKeepsQueues(w2);
      var w3 := Pick(w2);
      var e := w2.queue[Least(w2.queue)][0];
      assert QueueOk(w2, Least(w2.queue));
      assert w3.started == w.started + [e] && w3.queue == ws[n + 1].queue;
      assert forall p :: p in w3.queue ==> p in w2.queue;
    }
  }

  /** Looking at queue heads is enough: a queue holds a stale message exactly when its head is. */
  lemma HeadIsOldest<T>(w: Writer<T>, now: nat, p: Priority)
    requires QueuesOk(w) && p in w.queue
    ensures Stale(now, w.queue[p][0]) <==> exists k :: 0 <= k < |w.queue[p]| && Stale(now, w.queue[p][k])
  {
    assert QueueOk(w, p);
    var es := w.queue[p];
    forall k | 0 <= k < |es| && Stale(now, es[k]) ensures Stale(now, es[0]) {
      assert es[0].time <= es[k].time;
    }
  }

  /** A droppable priority holding some message older than the limit. */
  ghost predicate Overdue<T>(q: Queue<T>, now: nat, p: Priority) {
    p >= MSG_DROP_PRIORITY && p in q && exists k :: 0 <= k < |q[p]| && Stale(now, q[p][k])
  }

  lemma OffendsIsOverdue<T>(w: Writer<T>, now: Times, p: Priority)
    requires QueuesOk(w)
    ensures Offends(w.queue, now, p) <==> Overdue(w.queue, now.looked(p), p)
  {
    if p in w.queue {
      HeadIsOldest(w, now.looked(p), p);
      assert QueueOk(w, p);
    }
  }

  /** The drop rule: a call drops exactly the waiting messages whose priority value is at or above
      some droppable priority that holds an overdue message; nothing else is ever dropped. */
  lemma DropRule<T>(c: Codec<T>, ws: seq<Writer<T>>, steps: seq<WriteStep<T>>, n: nat, i: nat)
    requires IsRun(c, ws, steps) && n < |steps|
    ensures i in ws[n + 1].dropped - ws[n].dropped <==>
            && i < |ws[n].enqueued| && Queued(ws[n].queue, ws[n].enqueued[i])
            && exists p: Priority :: p <= ws[n].enqueued[i].prio && Overdue(ws[n].queue, steps[n].now.looked(p), p)
  {
    var w, s := ws[n], steps[n];
    RunKeepsInv(c, ws, steps, n);
    assert Calls(c, w, s, ws[n + 1]);
    assert ws[n + 1].dropped == w.dropped + Discarded(w.queue, s.now);
    forall p: Priority ensures Offends(w.queue, s.now, p) <==> Overdue(w.queue, s.now.looked(p), p) {
      OffendsIsOverdue(w, s.now, p);
    }
    if i in Discarded(w.queue, s.now) {
      var p, k :| p in w.queue && !Kept(w.queue, s.now, p) && 0 <= k < |w.queue[p]| && w.queue[p][k].id == i;
      assert QueueOk(w, p) && Known(w, w.queue[p][k]);
    }
    if i < |w.enqueued| && Queued(w.queue, w.enqueued[i]) {
      var e := w.enqueued[i];
      var k :| 0 <= k < |w.queue[e.prio]| && w.queue[e.prio][k] == e;
      assert !Kept(w.queue, s.now, e.prio) ==> i in Discarded(w.queue, s.now);
      assert !Before(w, e);
      assert i !in w.dropped;
    }
  }

  /** The age limit is in whole seconds: a message is too old from its sixty-first second on. */
  lemma StaleFrom<T>(now: nat, e: Entry<T>)
    ensures Stale(now, e) <==> now >= e.time + 61_000_000_000
  {
  }

  /** Every message so far has been transmitted whole or dropped. */
  ghost predicate AllSettled<T>(w: Writer<T>) {
    forall i :: 0 <= i < |w.enqueued| ==> w.enqueued[i] in Transmitted(w) || i in w.dropped
  }

  lemma CurrentIsUnsettled<T>(c: Codec<T>, w: Writer<T>)
    requires Inv(c, w) && w.current.Some?
    ensures !AllSettled(w)
  {
    var e := w.started[|w.started| - 1];
    assert Known(w, e) && e.id !in w.dropped;
    StartedOrNot(w, e);
    assert Suffers(w, e, IsCurrent);
  }

  lemma QueuedIsUnsettled<T>(c: Codec<T>, w: Writer<T>, p: Priority)
    requires Inv(c, w) && p in w.queue
    ensures !AllSettled(w)
  {
    assert QueueOk(w, p);
    var e := w.queue[p][0];
    assert Known(w, e) && !Before(w, e);
    StartedOrNot(w, e);
    assert e !in w.started;
  }

  lemma SettledMeansEmpty<T>(c: Codec<T>, w: Writer<T>)
    requires Inv(c, w)
    ensures AllSettled(w) <==> w.current.None? && w.queue == map[]
  {
    if w.current.Some? {
      CurrentIsUnsettled(c, w);
    } else if w.queue != map[] {
      var p :| p in w.queue;
      QueuedIsUnsettled(c, w, p);
    } else {
      forall i | 0 <= i < |w.enqueued| ensures w.enqueued[i] in Transmitted(w) || i in w.dropped {
        assert w.enqueued[i] in w.started || Queued(w.queue, w.enqueued[i]) || i in w.dropped;
      }
    }
  }

  /** A call reports that all is written exactly when nothing is left to send. Otherwise a write event
      is scheduled. */
  lemma DoneMeansNothingLeft<T>(c: Codec<T>, ws: seq<Writer<T>>, steps: seq<WriteStep<T>>, n: nat)
    requires IsRun(c, ws, steps) && n < |steps|
    ensures var w, w', s := ws[n], ws[n + 1], steps[n];
            && NoEmptyQueue(w.queue) && Offerable(c, w, s.now, s.msg, s.out)
            && var r := WriteCall(c, w, s.now, s.msg, s.out, true).1;
               (r == Done <==> AllSettled(w')) && (r == Done || (r == Blocked && w'.armed))
  {
    assert Calls(c, ws[n], steps[n], ws[n + 1]);
    RunKeepsInv(c, ws, steps, n + 1);
    SettledMeansEmpty(c, ws[n + 1]);
  }

  // ----- What a call does and answers -----

  /** Messages of this priority are waiting, and the call does not drop them. */
  ghost predicate Stays<T>(q: Queue<T>, now: Times, p: Priority) {
    p in q && q[p] != [] && forall p': Priority :: p' <= p ==> !Overdue(q, now.looked(p'), p')
  }

  /** A call has something to send. */
  ghost predicate HasWork<T>(w: Writer<T>, now: Times, msg: Option<(T, Priority)>) {
    w.current.Some? || msg.Some? || exists p :: Stays(w.queue, now, p)
  }

  lemma StaysMeansSurvivors<T>(w: Writer<T>, now: Times)
    requires QueuesOk(w)
    ensures (exists p :: Stays(w.queue, now, p)) <==> Surviving(w.queue, now) != map[]
  {
    var q := Surviving(w.queue, now);
    forall p: Priority ensures Offends(w.queue, now, p) <==> Overdue(w.queue, now.looked(p), p) {
      OffendsIsOverdue(w, now, p);
    }
    if p :| Stays(w.queue, now, p) {
      assert Kept(w.queue, now, p) && p in q;
    }
    if q != map[] {
      var p :| p in q;
      assert QueueOk(w, p) && Kept(w.queue, now, p);
      assert Stays(w.queue, now, p);
    }
  }

  /** A call with something to send offers it, and begins a frame exactly if none is under way. */
  lemma WorkIsOffered<T>(c: Codec<T>, w: Writer<T>, now: Times, msg: Option<(T, Priority)>)
    requires Ordered(c, w) && NoEmptyQueue(w.queue)
    ensures var w' := BeforeTransmit(c, w, now, msg);
            && (w'.current.Some? <==> HasWork(w, now, msg))
            && |w'.started| == |w.started| + (if w.current.None? && HasWork(w, now, msg) then 1 else 0)
            && w'.wire == w.wire
  {
    StaysMeansSurvivors(w, now);
    var w1 := DropStale(w, now);
    if msg.Some? { assert msg.value.1 in Enqueue(c, w1, msg.value.0, msg.value.1).queue; }
  }

  /** In every run a call begins a frame if and only if none is under way and there is something to send,
      and moves to the stream exactly the bytes it accepts of what it is offered. */
  lemma Progress<T>(c: Codec<T>, ws: seq<Writer<T>>, steps: seq<WriteStep<T>>, n: nat)
    requires IsRun(c, ws, steps) && n < |steps|
    ensures var w, w', s := ws[n], ws[n + 1], steps[n];
            && |w'.started| == |w.started| + (if w.current.None? && HasWork(w, s.now, s.msg) then 1 else 0)
            && |w'.wire| == |w.wire| + (if s.out.Accepted? && HasWork(w, s.now, s.msg) then s.out.count else 0)
  {
    RunKeepsInv(c, ws, steps, n);
    assert Calls(c, ws[n], steps[n], ws[n + 1]);
    WorkIsOffered(c, ws[n], steps[n].now, steps[n].msg);
  }

  /** A call fails if and only if it has something to send and the stream fails for good or the poll does
      not take the new interest. If it does not fail it answers that all is written exactly when nothing
      is left, and a write event is scheduled, once something has been offered, exactly when not. */
  lemma CallAnswers<T>(c: Codec<T>, w: Writer<T>, now: Times, msg: Option<(T, Priority)>, out: WriteOutcome,
      registered: bool)
    requires Ordered(c, w) && NoEmptyQueue(w.queue) && Offerable(c, w, now, msg, out)
    ensures var (w', r) := WriteCall(c, w, now, msg, out, registered);
            && (r == WriteFailed <==> HasWork(w, now, msg) && (out.Fatal? || !registered))
            && (r != WriteFailed ==> (r == Done <==> w'.current.None? && w'.queue == map[]))
            && (r != WriteFailed && HasWork(w, now, msg) ==> (w'.armed <==> r == Blocked))
  {
    StaysMeansSurvivors(w, now);
    WorkIsOffered(c, w, now, msg);
  }
}
