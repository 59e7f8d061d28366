/** What a writer is meant to do: the reference for `Socket.SockInner.Write`, with the history of
    every message ever handed to it. */
module Writing {
  import opened Options
  import opened Framing

  /** A lower value is a higher priority (u8). */
  type Priority = p: int | 0 <= p < 256

  /** Queues of this priority value and above may be dropped. */
  const MSG_DROP_PRIORITY: Priority := 2
  const MAX_MSG_AGE_SECS: nat := 60
  const NANOS_PER_SEC: nat := 1_000_000_000

  /** A queued frame. `id` and `msg` are history: which write call it came from, and its message. */
  datatype Entry<+T> = Entry(id: nat, prio: Priority, time: nat, msg: T, data: seq<Byte>)

  type Queue<+T> = map<Priority, seq<Entry<T>>>

  datatype WriteOutcome = Accepted(count: nat) | Again | Fatal

  datatype WriteResult = Done | Blocked | WriteFailed

  /** `queue`, `current` and `armed` (write interest registered with the poll) are the socket's own
      state; the rest is history: every entry, in write order; those whose transmission began, in
      that order; the ids of those dropped; and the bytes the stream accepted. */
  datatype Writer<T> = Writer(
    queue: Queue<T>,
    current: Option<seq<Byte>>,
    armed: bool,
    clock: nat,
    enqueued: seq<Entry<T>>,
    started: seq<Entry<T>>,
    dropped: set<nat>,
    wire: seq<Byte>)

  function NewWriter<T>(): Writer<T> {
    Writer(map[], None, false, 0, [], [], {}, [])
  }

  // ----- Dropping -----

  /** When one call reads the clock: as it looks at the head of each queue, and again to stamp the message
      it queues. */
  datatype Times = Times(looked: Priority -> nat, stamped: nat)

  /** The clock does not go back, within a call or since `clock`. */
  ghost predicate InOrder(clock: nat, now: Times) {
    && (forall p: Priority :: clock <= now.looked(p) <= now.stamped)
    && (forall p: Priority, q: Priority :: p <= q ==> now.looked(p) <= now.looked(q))
  }

  /** Elapsed time in whole seconds exceeds the limit. */
  predicate Stale<T>(now: nat, e: Entry<T>) {
    e.time <= now && (now - e.time) / NANOS_PER_SEC > MAX_MSG_AGE_SECS
  }

  /** A droppable queue whose head is stale. */
  predicate Offends<T>(q: Queue<T>, now: Times, p: Priority) {
    p >= MSG_DROP_PRIORITY && p in q && q[p] != [] && Stale(now.looked(p), q[p][0])
  }

  ghost predicate Kept<T>(q: Queue<T>, now: Times, p: Priority) {
    forall p': Priority :: p' <= p ==> !Offends(q, now, p')
  }

  ghost function Surviving<T>(q: Queue<T>, now: Times): Queue<T> {
    map p | p in q && Kept(q, now, p) :: q[p]
  }

  ghost function Discarded<T>(q: Queue<T>, now: Times): set<nat> {
    set p, k | p in q && !Kept(q, now, p) && 0 <= k < |q[p]| :: q[p][k].id
  }

  ghost function DropStale<T>(w: Writer<T>, now: Times): Writer<T> {
    w.(queue := Surviving(w.queue, now), dropped := w.dropped + Discarded(w.queue, now), clock := now.stamped)
  }

  // ----- Queueing -----

  function Push<T>(q: Queue<T>, e: Entry<T>): Queue<T> {
    q[e.prio := (if e.prio in q then q[e.prio] else []) + [e]]
  }

  function Enqueue<T>(c: Codec<T>, w: Writer<T>, m: T, p: Priority): Writer<T> {
    var e := Entry(|w.enqueued|, p, w.clock, m, Frame(c, m));
    w.(queue := Push(w.queue, e), enqueued := w.enqueued + [e])
  }

  // ----- Picking the next frame -----

  ghost predicate IsLeast<T>(q: Queue<T>, p: Priority) {
    p in q && forall p' :: p' in q ==> p <= p'
  }

  function PopHead<T>(q: Queue<T>, p: Priority): Queue<T>
    requires p in q && q[p] != []
  {
    if |q[p]| == 1 then q - {p} else q[p := q[p][1..]]
  }

  lemma {:induction false} LeastExists<T>(q: Queue<T>, keys: set<Priority>)
    requires keys == q.Keys && keys != {}
    ensures exists p :: IsLeast(q, p)
  {
    var p :| p in keys;
    if keys == {p} {
      assert IsLeast(q, p);
    } else {
      var q' := q - {p};
      assert q'.Keys == keys - {p};
      LeastExists(q', keys - {p});
      var p' :| IsLeast(q', p');
      assert forall r :: r in q ==> r == p || r in q';
      assert IsLeast(q, if p <= p' then p else p');
    }
  }

  ghost function Least<T>(q: Queue<T>): (p: Priority)
    requires q != map[]
    ensures IsLeast(q, p)
  {
    assert q.Keys != {} by { var p :| p in q; assert p in q.Keys; }
    LeastExists(q, q.Keys);
    var p :| IsLeast(q, p);
    p
  }

  ghost predicate NoEmptyQueue<T>(q: Queue<T>) {
    forall p :: p in q ==> q[p] != []
  }

  ghost function Pick<T>(w: Writer<T>): Writer<T>
    requires w.queue != map[] && NoEmptyQueue(w.queue)
  {
    var p := Least(w.queue);
    var e := w.queue[p][0];
    w.(queue := PopHead(w.queue, p), current := Some(e.data), started := w.started + [e])
  }

  // ----- One call -----

  ghost function BeforeTransmit<T>(c: Codec<T>, w: Writer<T>, now: Times, msg: Option<(T, Priority)>): Writer<T>
    requires NoEmptyQueue(w.queue)
  {
    var w1 := DropStale(w, now);
    var w2 := if msg.Some? then Enqueue(c, w1, msg.value.0, msg.value.1) else w1;
    if w2.current.None? && w2.queue != map[] then Pick(w2) else w2
  }

  function Transmit<T>(w: Writer<T>, out: WriteOutcome, registered: bool): (Writer<T>, WriteResult)
    requires w.current.Some?
    requires out.Accepted? ==> out.count <= |w.current.value|
  {
    var data := w.current.value;
    if out.Fatal? then (w.(current := None), WriteFailed)
    else
      var w' := if out.Again? then w
                else w.(current := if out.count < |data| then Some(data[out.count..]) else None,
                        wire := w.wire + data[..out.count]);
      var done := w'.current.None? && w'.queue == map[];
      if !registered then (w', WriteFailed)
      else (w'.(armed := !done), if done then Done else Blocked)
  }

  /** The stream never accepts more than it is offered. */
  ghost predicate Offerable<T>(c: Codec<T>, w: Writer<T>, now: Times, msg: Option<(T, Priority)>, out: WriteOutcome)
    requires NoEmptyQueue(w.queue)
  {
    var w' := BeforeTransmit(c, w, now, msg);
    w'.current.Some? && out.Accepted? ==> out.count <= |w'.current.value|
  }

  ghost function WriteCall<T>(c: Codec<T>, w: Writer<T>, now: Times, msg: Option<(T, Priority)>, out: WriteOutcome,
      registered: bool): (Writer<T>, WriteResult)
    requires NoEmptyQueue(w.queue) && Offerable(c, w, now, msg, out)
  {
    var w' := BeforeTransmit(c, w, now, msg);
    if w'.current.None? then (w', Done) else Transmit(w', out, registered)
  }
}
