/** How parents' sets and their sub-states change together. */
module Family {
  import opened Options
  import opened ConnMap
  import opened Node
  import opened NodeInv

  predicate Childless(states: States, c: Token)
    requires c in states
  {
    Kids(states[c]) == {}
  }

  /** `b` can stand in for `a` as a parent. */
  predicate SameKind(a: State, b: State) {
    && (a.Connecting? ==> b.Connecting? && b.peer == a.peer)
    && (a.Bootstrapping? ==> b.Bootstrapping?)
    && (a.InExchange? ==> b.InExchange?)
  }

  lemma NoKidsOfAbsent(states: States, c: Token)
    requires Owns(states) && c !in states
    ensures KidsOf(states, c) == {}
  {
    forall k | k in states ensures ParentOf(states[k]) != Some(c) { assert Kin(states, k); }
  }

  lemma OwnsRemoveRoot(states: States, c: Token)
    requires Owns(states) && c in states && ParentOf(states[c]).None? && Childless(states, c)
    ensures Owns(states - {c})
  {
    var states' := states - {c};
    forall t | t in states' ensures Kids(states'[t]) == KidsOf(states', t) {
      assert KidsOf(states', t) == KidsOf(states, t);
    }
    forall k | k in states' ensures Kin(states', k) {
      assert Kin(states, k);
      assert k !in KidsOf(states, c);
    }
  }

  /** A state with neither parent nor children appears, or replaces another such. */
  lemma OwnsPutRoot(states: States, c: Token, st: State)
    requires Owns(states) && ParentOf(st).None? && Kids(st) == {}
    requires c in states ==> ParentOf(states[c]).None? && Childless(states, c)
    ensures Owns(states[c := st])
  {
    if c !in states { NoKidsOfAbsent(states, c); }
    assert KidsOf(states, c) == {};
    var states' := states[c := st];
    forall t | t in states' ensures Kids(states'[t]) == KidsOf(states', t) {
      assert KidsOf(states', t) == KidsOf(states, t);
    }
    forall k | k in states' ensures Kin(states', k) {
      if k != c {
        assert Kin(states, k) && k !in KidsOf(states, c);
      }
    }
  }

  /** A sub-state changes under the same parent. */
  lemma OwnsMorph(states: States, c: Token, st: State)
    requires Owns(states) && c in states && Childless(states, c)
    requires ParentOf(st) == ParentOf(states[c]) && Kids(st) == {} && Kin(states[c := st], c)
    ensures Owns(states[c := st])
  {
    var states' := states[c := st];
    forall t | t in states' ensures Kids(states'[t]) == KidsOf(states', t) {
      assert KidsOf(states', t) == KidsOf(states, t);
    }
    forall k | k in states' ensures Kin(states', k) {
      assert Kin(states, k) && k !in KidsOf(states, c);
    }
  }

  /** A parent changes and keeps its children. */
  lemma OwnsSwapParent(states: States, t: Token, st: State)
    requires Owns(states) && t in states && SameKind(states[t], st)
    requires ParentOf(states[t]).None? && ParentOf(st).None? && Kids(st) == Kids(states[t])
    ensures Owns(states[t := st])
  {
    var states' := states[t := st];
    forall u | u in states' ensures Kids(states'[u]) == KidsOf(states', u) {
      assert KidsOf(states', u) == KidsOf(states, u);
    }
    forall k | k in states' ensures Kin(states', k) {
      assert Kin(states, k);
    }
  }

  lemma OwnsDropChild(states: States, c: Token, t: Token, st: State)
    requires Owns(states) && c in states && t in states && c != t && Childless(states, c)
    requires ParentOf(states[c]) == Some(t) && ParentOf(states[t]).None?
    requires SameKind(states[t], st) && ParentOf(st).None? && Kids(st) == Kids(states[t]) - {c}
    ensures Owns((states - {c})[t := st])
  {
    var states' := (states - {c})[t := st];
    forall u | u in states' ensures Kids(states'[u]) == KidsOf(states', u) {
      assert KidsOf(states', u) == KidsOf(states, u) - {c};
      assert u != t ==> c !in KidsOf(states, u);
    }
    forall k | k in states' ensures Kin(states', k) {
      assert Kin(states, k) && k !in KidsOf(states, c);
    }
  }

  /** A sub-state stays but is on its own from now on. */
  lemma OwnsDetach(states: States, c: Token, stc: State, t: Token, st: State)
    requires Owns(states) && c in states && t in states && c != t && Childless(states, c)
    requires ParentOf(states[c]) == Some(t) && ParentOf(states[t]).None?
    requires ParentOf(stc).None? && Kids(stc) == {}
    requires SameKind(states[t], st) && ParentOf(st).None? && Kids(st) == Kids(states[t]) - {c}
    ensures Owns(states[c := stc][t := st])
  {
    var states' := states[c := stc][t := st];
    forall u | u in states' ensures Kids(states'[u]) == KidsOf(states', u) {
      assert KidsOf(states', u) == KidsOf(states, u) - {c};
      assert u != t ==> c !in KidsOf(states, u);
    }
    forall k | k in states' ensures Kin(states', k) {
      assert Kin(states, k) && k !in KidsOf(states, c);
    }
  }

  lemma OwnsAddChild(states: States, c: Token, stc: State, t: Token, st: State)
    requires Owns(states) && c !in states && t in states && ParentOf(states[t]).None?
    requires ParentOf(stc) == Some(t) && Kids(stc) == {} && Kin(states[t := st][c := stc], c)
    requires SameKind(states[t], st) && ParentOf(st).None? && Kids(st) == Kids(states[t]) + {c}
    ensures Owns(states[t := st][c := stc])
  {
    NoKidsOfAbsent(states, c);
    var states' := states[t := st][c := stc];
    forall u | u in states' ensures Kids(states'[u]) == KidsOf(states', u) {
      assert KidsOf(states', u) == if u == t then KidsOf(states, u) + {c} else KidsOf(states, u);
    }
    forall k | k in states' ensures Kin(states', k) {
      if k != c { assert Kin(states, k); }
    }
  }

  /** A sub-state is never a parent itself. */
  lemma KidsAreChildless(states: States, t: Token)
    requires Owns(states) && t in states
    ensures forall c :: c in Kids(states[t]) ==> c in states && ParentOf(states[c]) == Some(t) && Childless(states, c)
    ensures Kids(states[t]) != {} ==> ParentOf(states[t]).None?
  {
    assert Kids(states[t]) == KidsOf(states, t);
  }

  /** A parent loses all its children at once. */
  lemma OwnsDropKids(states: States, t: Token, st: State)
    requires Owns(states) && t in states && ParentOf(states[t]).None?
    requires SameKind(states[t], st) && ParentOf(st).None? && Kids(st) == {}
    ensures Owns((states - Kids(states[t]))[t := st])
  {
    var ks := Kids(states[t]);
    var states' := (states - ks)[t := st];
    KidsAreChildless(states, t);
    assert t !in ks;
    forall u | u in states' ensures Kids(states'[u]) == KidsOf(states', u) {
      assert KidsOf(states', u) == KidsOf(states, u) - ks;
      forall k | k in KidsOf(states, u) && k in ks ensures u == t { }
      assert u != t ==> KidsOf(states, u) - ks == KidsOf(states, u);
    }
    forall k | k in states' ensures Kin(states', k) {
      assert Kin(states, k);
      forall c | c in ks ensures ParentOf(states[k]) != Some(c) {
        assert k !in KidsOf(states, c);
      }
    }
  }
}
