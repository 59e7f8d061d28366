/** The connection map: per peer, how many handshakes are under way and which connection is active. */
module ConnMap {
  import opened Options

  type Uid = nat
  type Token = nat

  /** `handshaking` is an `int` so that a decrement below zero shows. */
  datatype ConnectionId = ConnectionId(active: Option<Token>, handshaking: int)

  type ConnectionMap = map<Uid, ConnectionId>

  function EnterHandshake(cm: ConnectionMap, p: Uid): ConnectionMap {
    var e := if p in cm then cm[p] else ConnectionId(None, 0);
    cm[p := e.(handshaking := e.handshaking + 1)]
  }

  function LeaveHandshake(cm: ConnectionMap, p: Uid): ConnectionMap {
    if p !in cm then cm
    else
      var e := cm[p].(handshaking := cm[p].handshaking - 1);
      if e.handshaking == 0 && e.active.None? then cm - {p} else cm[p := e]
  }

  /** A connection enters service: its handshake ends, or is taken to have ended if none was known. */
  function Activate(cm: ConnectionMap, p: Uid, t: Token): ConnectionMap {
    var e := if p in cm then cm[p] else ConnectionId(None, 1);
    cm[p := ConnectionId(Some(t), e.handshaking - 1)]
  }

  function Deactivate(cm: ConnectionMap, p: Uid): ConnectionMap {
    if p !in cm then cm
    else if cm[p].handshaking == 0 then cm - {p}
    else cm[p := cm[p].(active := None)]
  }

  function LeaveMany(cm: ConnectionMap, p: Uid, n: nat): ConnectionMap {
    if n == 0 then cm else LeaveHandshake(LeaveMany(cm, p, n - 1), p)
  }

  function EnterMany(cm: ConnectionMap, p: Uid, n: nat): ConnectionMap {
    if n == 0 then cm else EnterHandshake(EnterMany(cm, p, n - 1), p)
  }

  /** What the map is meant to say of peer `p`, given the tokens `hs` of the states handshaking with
      it and the tokens `acts` of its connections in service. */
  ghost predicate Matches(cm: ConnectionMap, p: Uid, hs: set<Token>, acts: set<Token>) {
    && (p in cm <==> hs != {} || acts != {})
    && (p in cm ==>
          && cm[p].handshaking == |hs|
          && acts == if cm[p].active.Some? then {cm[p].active.value} else {})
  }

  lemma EnterMatches(cm: ConnectionMap, p: Uid, hs: set<Token>, acts: set<Token>, t: Token)
    requires Matches(cm, p, hs, acts) && t !in hs
    ensures Matches(EnterHandshake(cm, p), p, hs + {t}, acts)
  {
  }

  /** Counting `u` in while `t`, counted for `v`, stays with `u` or moves to it, is one too many. */
  lemma EnterMiscounts(cm: ConnectionMap, u: Uid, v: Uid, hs: set<Token>, acts: set<Token>, t: Token, acts': set<Token>)
    requires Matches(cm, v, hs, acts) && t in hs
    ensures !Matches(EnterHandshake(cm, u), v, if u == v then hs else hs - {t}, acts')
  {
    assert |hs - {t}| == |hs| - 1;
  }

  /** A handshake that ends was counted, so the count does not go below zero; the entry goes with
      the last of them. */
  lemma LeaveMatches(cm: ConnectionMap, p: Uid, hs: set<Token>, acts: set<Token>, t: Token)
    requires Matches(cm, p, hs, acts) && t in hs
    ensures cm[p].handshaking >= 1
    ensures Matches(LeaveHandshake(cm, p), p, hs - {t}, acts)
  {
    assert |hs - {t}| == |hs| - 1;
  }

  lemma ActivateMatches(cm: ConnectionMap, p: Uid, hs: set<Token>, acts: set<Token>, t: Token)
    requires Matches(cm, p, hs, acts) && t !in acts
    ensures Matches(Activate(cm, p, t), p, hs - {t}, acts + {t}) <==> (acts == {} && (t in hs || hs == {}))
  {
    assert t in hs ==> |hs - {t}| == |hs| - 1;
    assert t !in hs ==> hs - {t} == hs;
    if acts != {} {
      var u :| u in acts;
      assert {u, t} <= acts + {t};
    }
  }

  lemma DeactivateMatches(cm: ConnectionMap, p: Uid, hs: set<Token>, t: Token)
    requires Matches(cm, p, hs, {t})
    ensures Matches(Deactivate(cm, p), p, hs, {})
  {
    assert |hs| == 0 <==> hs == {};
  }

  lemma {:induction false} LeaveManyMatches(cm: ConnectionMap, p: Uid, hs: set<Token>, acts: set<Token>,
      gone: set<Token>)
    requires Matches(cm, p, hs, acts) && gone <= hs
    ensures Matches(LeaveMany(cm, p, |gone|), p, hs - gone, acts)
    decreases gone
  {
    if gone == {} {
      assert hs - gone == hs;
    } else {
      var t :| t in gone;
      LeaveManyMatches(cm, p, hs, acts, gone - {t});
      assert |gone - {t}| == |gone| - 1;
      LeaveMatches(LeaveMany(cm, p, |gone| - 1), p, hs - (gone - {t}), acts, t);
      assert hs - (gone - {t}) - {t} == hs - gone;
    }
  }

  lemma {:induction false} EnterManyMatches(cm: ConnectionMap, p: Uid, hs: set<Token>, acts: set<Token>,
      hs': set<Token>, n: nat)
    requires Matches(cm, p, hs, acts) && hs <= hs' && |hs'| == |hs| + n
    ensures Matches(EnterMany(cm, p, n), p, hs', acts)
    decreases n
  {
    if hs' != hs {
      var t, rest := OneMore(hs, hs', n);
      EnterManyMatches(cm, p, hs, acts, rest, n - 1);
      EnterMatches(EnterMany(cm, p, n - 1), p, rest, acts, t);
    }
  }

  lemma OneMore(hs: set<Token>, hs': set<Token>, n: nat) returns (t: Token, rest: set<Token>)
    requires hs <= hs' && hs != hs' && |hs'| == |hs| + n
    ensures t !in rest && hs' == rest + {t} && hs <= rest && n >= 1 && |rest| == |hs| + (n - 1)
  {
    t :| t in hs' && t !in hs;
    rest := hs' - {t};
    assert hs' == rest + {t};
    assert rest == hs + (rest - hs);
  }

  /** Other peers' entries are never touched. */
  lemma {:induction false} ManyElsewhere(cm: ConnectionMap, p: Uid, q: Uid, n: nat)
    requires p != q
    ensures q in LeaveMany(cm, p, n) <==> q in cm
    ensures q in EnterMany(cm, p, n) <==> q in cm
    ensures q in cm ==> LeaveMany(cm, p, n)[q] == cm[q] && EnterMany(cm, p, n)[q] == cm[q]
  {
    if n > 0 { ManyElsewhere(cm, p, q, n - 1); }
  }
}
