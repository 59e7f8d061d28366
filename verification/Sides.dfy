/** What one side of a pair of peers does with its connections to the other, as moves of a small system;
    and that every step of the two-peer model is such moves on either side. */
module Sides {
  import opened Options
  import T = TwoPeer

  /** Where a connection to the peer is: in an exchange that asks, or that replies with its introduction
      or with a bootstrap grant; waiting to be chosen; or in service. */
  datatype Kind = Asks | Replies | Grants | Waits | Serves

  /** A side's connections to the peer, and the one its map names. */
  datatype View = View(ends: map<nat, Kind>, active: Option<nat>)

  datatype Move =
    | Begins(c: nat, kind: Kind)
    | Passes(c: nat)
    | Enters(c: nat)
    | Bootstraps(c: nat)
    | Leaves(c: nat)

  predicate Can(v: View, m: Move) {
    match m
    case Begins(c, kind) => c !in v.ends && kind in {Asks, Replies, Grants}
    case Passes(c) => c in v.ends && v.ends[c] in {Asks, Replies}
    case Enters(c) => c in v.ends && v.ends[c] == Waits
    case Bootstraps(c) => c in v.ends ==> v.ends[c] == Grants
    case Leaves(c) => c in v.ends
  }

  /** Entering service makes the map name the connection, whatever it named before; leaving it makes the
      map name none. */
  function Moved(v: View, m: Move): View
    requires Can(v, m)
  {
    match m
    case Begins(c, kind) => v.(ends := v.ends[c := kind])
    case Passes(c) => v.(ends := v.ends[c := Waits])
    case Enters(c) => View(v.ends[c := Serves], Some(c))
    case Bootstraps(c) => View(v.ends[c := Serves], Some(c))
    case Leaves(c) => View(v.ends - {c}, if v.ends[c] == Serves then None else v.active)
  }

  ghost predicate Moves(v: View, ms: seq<Move>, v': View)
    decreases |ms|
  {
    if ms == [] then v == v' else Can(v, ms[0]) && Moves(Moved(v, ms[0]), ms[1..], v')
  }

  ghost predicate Goes(v: View, v': View) {
    exists ms :: Moves(v, ms, v')
  }

  lemma Stays(v: View)
    ensures Goes(v, v)
  {
    assert Moves(v, [], v);
  }

  lemma GoesBy(v: View, m: Move)
    requires Can(v, m)
    ensures Goes(v, Moved(v, m))
  {
    assert [m][1..] == [] && Moves(Moved(v, m), [], Moved(v, m));
    assert Moves(v, [m], Moved(v, m));
  }

  lemma {:induction false} MovesThen(v: View, ms: seq<Move>, v': View, ns: seq<Move>, v'': View)
    requires Moves(v, ms, v') && Moves(v', ns, v'')
    ensures Moves(v, ms + ns, v'')
    decreases |ms|
  {
    if ms == [] {
      assert ms + ns == ns;
    } else {
      MovesThen(Moved(v, ms[0]), ms[1..], v', ns, v'');
      assert (ms + ns)[1..] == ms[1..] + ns;
    }
  }

  lemma GoesThen(a: View, b: View, c: View)
    requires Goes(a, b) && Goes(b, c)
    ensures Goes(a, c)
  {
    var ms :| Moves(a, ms, b);
    var ns :| Moves(b, ns, c);
    MovesThen(a, ms, b, ns, c);
  }

  // ----- A side of the two-peer model -----

  function EndKind(e: T.End): Option<Kind> {
    match e
    case Asking(_) => Some(Asks)
    case Answering(replying) => if replying then Some(Replies) else None
    case Candidate => Some(Waits)
    case Active => Some(Serves)
    case Closed => None
  }

  function SideView(y: T.Sys, side: T.Side): View {
    View(map c | c in y.links && EndKind(y.links[c].At(side)).Some? :: EndKind(y.links[c].At(side)).value,
         y.ActiveOf(side))
  }

  /** The moves of one side at a step of the two-peer model. */
  function MovesAt(y: T.Sys, t: T.Step, side: T.Side): seq<Move>
    requires T.Enabled(y, t)
  {
    match t
    case Open(c, initiator) => if side == initiator then [Begins(c, Asks)] else []
    case Request(_, _) => []
    case Reply(c, s) => if side == s then [Passes(c)] else []
    case Receive(c, s) => if side == s then Hears(c, y.links[c].At(s), y.links[c].Inbox(s)[0]) else []
    case Writable(c, s) =>
      if side != s then []
      else if y.ActiveOf(s).Some? then [Leaves(c)]
      else if s.Hi? then [Enters(c)] else []
    case SendPayload(_, _) => []
    case WriteBreaks(c, s) => if side == s then [Leaves(c)] else []
    case Drop(c, s) => if side == s && EndKind(y.links[c].At(s)).Some? then [Leaves(c)] else []
  }

  function Hears(c: nat, e: T.End, m: T.Msg): seq<Move> {
    match e
    case Asking(_) => if m.Connect? then [Passes(c)] else [Leaves(c)]
    case Answering(replying) =>
      if m.Connect? then if replying then [] else [Begins(c, Replies)]
      else if replying then [Leaves(c)] else []
    case Candidate => if m.ChooseConnection? then [Enters(c)] else [Leaves(c)]
    case Active => []
    case Closed => []
  }

  function PutKind(ends: map<nat, Kind>, c: nat, k: Option<Kind>): map<nat, Kind> {
    if k.Some? then ends[c := k.value] else ends - {c}
  }

  function KindOf(v: View, c: nat): Option<Kind> {
    if c in v.ends then Some(v.ends[c]) else None
  }

  function KindAfter(m: Move): Option<Kind> {
    match m
    case Begins(_, kind) => Some(kind)
    case Passes(_) => Some(Waits)
    case Enters(_) => Some(Serves)
    case Bootstraps(_) => Some(Serves)
    case Leaves(_) => None
  }

  /** A move changes the kind of its own connection only. */
  lemma OneMove(v: View, m: Move, v': View)
    requires Can(v, m) && v'.ends == PutKind(v.ends, m.c, KindAfter(m)) && v'.active == Moved(v, m).active
    ensures Moves(v, [m], v')
  {
    assert [m][1..] == [] && Moves(v', [], v');
  }

  /** One link changes. */
  ghost predicate OnlyLink(y: T.Sys, y': T.Sys, c: nat) {
    c in y'.links && y'.links == y.links[c := y'.links[c]]
  }

  lemma LinkView(y: T.Sys, y': T.Sys, c: nat, side: T.Side)
    requires OnlyLink(y, y', c)
    ensures SideView(y', side).ends == PutKind(SideView(y, side).ends, c, EndKind(y'.links[c].At(side)))
    ensures KindOf(SideView(y, side), c) == if c in y.links then EndKind(y.links[c].At(side)) else None
  {
  }

  /** A step that changes one link by no move or by one. */
  lemma LinkMoves(y: T.Sys, y': T.Sys, c: nat, side: T.Side, ms: seq<Move>)
    requires OnlyLink(y, y', c) && |ms| <= 1
    requires var k := if c in y.links then EndKind(y.links[c].At(side)) else None;
             var k' := EndKind(y'.links[c].At(side));
             if ms == [] then k' == k && y'.ActiveOf(side) == y.ActiveOf(side)
             else
               && ms[0].c == c && Can(SideView(y, side), ms[0]) && k' == KindAfter(ms[0])
               && y'.ActiveOf(side) == Moved(SideView(y, side), ms[0]).active
    ensures Moves(SideView(y, side), ms, SideView(y', side))
  {
    var v, v' := SideView(y, side), SideView(y', side);
    LinkView(y, y', c, side);
    if ms == [] {
      assert v'.ends == v.ends;
    } else {
      OneMove(v, ms[0], v');
      assert ms == [ms[0]];
    }
  }

  lemma StepLink(y: T.Sys, t: T.Step)
    requires T.Enabled(y, t)
    ensures OnlyLink(y, T.Next(y, t), t.c)
  {
  }

  lemma ReceiveMoves(y: T.Sys, t: T.Step, side: T.Side)
    requires T.Enabled(y, t) && t.Receive?
    ensures Moves(SideView(y, side), MovesAt(y, t, side), SideView(T.Next(y, t), side))
  {
    StepLink(y, t);
    LinkView(y, y.SetLink(t.c, y.links[t.c]), t.c, side);
    LinkMoves(y, T.Next(y, t), t.c, side, MovesAt(y, t, side));
  }

  lemma BreakMoves(y: T.Sys, t: T.Step, side: T.Side)
    requires T.Enabled(y, t) && t.WriteBreaks?
    ensures Moves(SideView(y, side), MovesAt(y, t, side), SideView(T.Next(y, t), side))
  {
    StepLink(y, t);
    LinkView(y, y.SetLink(t.c, y.links[t.c]), t.c, side);
    LinkMoves(y, T.Next(y, t), t.c, side, MovesAt(y, t, side));
  }

  /** Every step of the two-peer model is, on either side, one of these moves or none. */
  lemma StepMoves(y: T.Sys, t: T.Step, side: T.Side)
    requires T.Enabled(y, t)
    ensures Moves(SideView(y, side), MovesAt(y, t, side), SideView(T.Next(y, t), side)) && |MovesAt(y, t, side)| <= 1
  {
    if t.Receive? {
      ReceiveMoves(y, t, side);
    } else if t.WriteBreaks? {
      BreakMoves(y, t, side);
    } else {
      StepLink(y, t);
      if !t.Open? { LinkView(y, y.SetLink(t.c, y.links[t.c]), t.c, side); }
      LinkMoves(y, T.Next(y, t), t.c, side, MovesAt(y, t, side));
    }
  }

  // ----- Runs -----

  /** The moves of one side through the first `m` steps. */
  ghost function AllMoves(ys: seq<T.Sys>, ts: seq<T.Step>, m: nat, side: T.Side): seq<Move>
    requires T.IsRun(ys, ts) && m < |ys|
  {
    if m == 0 then [] else AllMoves(ys, ts, m - 1, side) + MovesAt(ys[m - 1], ts[m - 1], side)
  }

  lemma {:induction false} SideRun(ys: seq<T.Sys>, ts: seq<T.Step>, m: nat, side: T.Side)
    requires T.IsRun(ys, ts) && m < |ys|
    ensures Moves(View(map[], None), AllMoves(ys, ts, m, side), SideView(ys[m], side))
    decreases m
  {
    if m == 0 {
      assert SideView(T.Start, side).ends == map[];
    } else {
      SideRun(ys, ts, m - 1, side);
      StepMoves(ys[m - 1], ts[m - 1], side);
      MovesThen(View(map[], None), AllMoves(ys, ts, m - 1, side), SideView(ys[m - 1], side),
                MovesAt(ys[m - 1], ts[m - 1], side), SideView(ys[m], side));
    }
  }

  lemma {:induction false} SameMoves(v: View, ms: seq<Move>, a: View, b: View)
    requires Moves(v, ms, a) && Moves(v, ms, b)
    ensures a == b
    decreases |ms|
  {
    if ms != [] { SameMoves(Moved(v, ms[0]), ms[1..], a, b); }
  }
}
