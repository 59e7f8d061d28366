/** The shared configuration and the periodic refresh that purges peers no longer whitelisted. */
module Config {
  import opened Options
  import opened ConnMap
  import opened Node
  import opened NodeInv
  import opened NodeRuns
  import opened Core

  type Ip = nat

  /** The two whitelists, and `rest` for every other setting: configurations are compared whole. */
  datatype Settings = Settings(nodeIps: Option<set<Ip>>, clientIps: Option<set<Ip>>, rest: nat)

  /** The stored configuration, and whether it changed since the last refresh. */
  datatype Stored = Stored(cfg: Settings, modified: bool)

  function Updated(w: Stored, cfg: Settings): Stored {
    if w.cfg != cfg then Stored(cfg, true) else w
  }

  function Refreshed(w: Stored, cfg: Settings): (Stored, bool) {
    (Stored(cfg, false), w.cfg != cfg || w.modified)
  }

  // ----- What a refresh reports -----

  /** A handshake re-reads the configuration, or the refresher does. */
  datatype Use = Update(cfg: Settings) | Refresh(cfg: Settings)

  function After(w: Stored, u: Use): Stored {
    match u
    case Update(cfg) => Updated(w, cfg)
    case Refresh(cfg) => Refreshed(w, cfg).0
  }

  ghost predicate IsHistory(ws: seq<Stored>, us: seq<Use>) {
    && |ws| == |us| + 1
    && !ws[0].modified
    && forall i :: 0 <= i < |us| ==> ws[i + 1] == After(ws[i], us[i])
  }

  /** Use `j` found the stored configuration different. */
  predicate Changes(ws: seq<Stored>, us: seq<Use>, j: nat)
    requires |ws| == |us| + 1 && j < |us|
  {
    us[j].cfg != ws[j].cfg
  }

  /** Some update changed the configuration before use `i`, with no refresh in between. */
  ghost predicate ChangedSinceRefresh(ws: seq<Stored>, us: seq<Use>, i: nat)
    requires |ws| == |us| + 1 && i <= |us|
  {
    exists j :: 0 <= j < i && us[j].Update? && Changes(ws, us, j) && OnlyUpdates(us, j, i)
  }

  predicate OnlyUpdates(us: seq<Use>, j: nat, i: nat)
    requires i <= |us|
  {
    forall k :: j < k < i ==> us[k].Update?
  }

  lemma {:induction false} FlagMeaning(ws: seq<Stored>, us: seq<Use>, i: nat)
    requires IsHistory(ws, us) && i <= |us|
    ensures ws[i].modified <==> ChangedSinceRefresh(ws, us, i)
    decreases i
  {
    if i > 0 {
      var n := i - 1;
      FlagMeaning(ws, us, n);
      assert ws[i] == After(ws[n], us[n]);
      if us[n].Update? {
        if Changes(ws, us, n) {
          assert OnlyUpdates(us, n, i);
        }
        if ChangedSinceRefresh(ws, us, n) {
          var j :| 0 <= j < n && us[j].Update? && Changes(ws, us, j) && OnlyUpdates(us, j, n);
          assert OnlyUpdates(us, j, i);
        }
        if ChangedSinceRefresh(ws, us, i) && !Changes(ws, us, n) {
          var j :| 0 <= j < i && us[j].Update? && Changes(ws, us, j) && OnlyUpdates(us, j, i);
          assert OnlyUpdates(us, j, n);
        }
      }
    }
  }

  /** Use `i` changes what is stored, or some update since the refresh before it did. */
  ghost predicate Reports(ws: seq<Stored>, us: seq<Use>, i: nat)
    requires |ws| == |us| + 1 && i < |us|
  {
    Changes(ws, us, i) || ChangedSinceRefresh(ws, us, i)
  }

  /** In every history a refresh reports true exactly when it, or some update since the refresh
      before it, changed what was stored; changing it back does not hide that. */
  lemma RefreshReportsChange(ws: seq<Stored>, us: seq<Use>, i: nat)
    requires IsHistory(ws, us) && i < |us| && us[i].Refresh?
    ensures Refreshed(ws[i], us[i].cfg).1 <==> Reports(ws, us, i)
  {
    FlagMeaning(ws, us, i);
  }

  // ----- The same, in place -----

  /** The stored configuration with the history of its use. */
  class ConfigWrapper {
    var cfg: Settings
    var isModifiedForNextRefresh: bool
    ghost var past: seq<Stored>
    ghost var uses: seq<Use>

    ghost predicate Valid()
      reads this
    {
      IsHistory(past, uses) && past[|uses|] == Stored(cfg, isModifiedForNextRefresh)
    }

    constructor (cfg: Settings)
      ensures Valid() && this.cfg == cfg && uses == []
    {
      this.cfg, isModifiedForNextRefresh := cfg, false;
      past, uses := [Stored(cfg, false)], [];
    }

    /** A change is remembered until the next refresh, and nothing else is: see `FlagMeaning`. */
    method CheckForUpdateAndMarkModified(newCfg: Settings)
      requires Valid()
      modifies this
      ensures Valid() && cfg == newCfg && uses == old(uses) + [Update(newCfg)] && old(past) <= past
      ensures isModifiedForNextRefresh <==> ChangedSinceRefresh(past, uses, |uses|)
    {
      if cfg != newCfg {
        cfg := newCfg;
        isModifiedForNextRefresh := true;
      }
      past, uses := past + [Updated(past[|uses|], newCfg)], uses + [Update(newCfg)];
      FlagMeaning(past, uses, |uses|);
    }

    method CheckForRefreshAndResetModified(newCfg: Settings) returns (shouldRefresh: bool)
      requires Valid()
      modifies this
      ensures Valid() && cfg == newCfg && uses == old(uses) + [Refresh(newCfg)] && old(past) <= past
      ensures shouldRefresh <==> Reports(past, uses, old(|uses|))
    {
      ghost var w, n := past[|uses|], |uses|;
      if cfg != newCfg {
        cfg := newCfg;
        shouldRefresh := true;
      } else {
        shouldRefresh := isModifiedForNextRefresh;
      }
      isModifiedForNextRefresh := false;
      past, uses := past + [Refreshed(w, newCfg).0], uses + [Refresh(newCfg)];
      RefreshReportsChange(past, uses, n);
    }
  }

  /** An incoming exchange re-reads the configuration file; one that cannot be read changes nothing. */
  method TryUpdateConfig(config: ConfigWrapper, read: Option<Settings>)
    requires config.Valid()
    modifies config
    ensures config.Valid() && old(config.past) <= config.past
    ensures config.uses == old(config.uses) + (if read.Some? then [Update(read.value)] else [])
    ensures read.None? ==> config.cfg == old(config.cfg)
    ensures read.Some? ==> config.cfg == read.value
  {
    if read.Some? {
      config.CheckForUpdateAndMarkModified(read.value);
    } else {
      assert config.uses + [] == config.uses;
    }
  }

  // ----- The purge -----

  /** A connection may stay: its address is known and, if it is a node's and there is a list of nodes, on
      that; or, if it is a client's and there is a list of clients, on that. */
  predicate MayStay(cfg: Settings, role: Role, addr: Option<Ip>) {
    && addr.Some?
    && (role == AsNode && cfg.nodeIps.Some? ==> addr.value in cfg.nodeIps.value)
    && (role == AsClient && cfg.clientIps.Some? ==> addr.value in cfg.clientIps.value)
  }

  predicate Restricts(cfg: Settings) {
    cfg.nodeIps.Some? || cfg.clientIps.Some?
  }

  predicate Doomed(cfg: Settings, addr: Token -> Option<Ip>, s: NodeState, t: Token) {
    t in s.states && s.states[t].Active? && !MayStay(cfg, s.states[t].role, addr(t))
  }

  /** The map names every connection in service, so going through it misses none. */
  lemma MapNamesAll(s: NodeState, t: Token)
    requires Accounts(s.states, s.cm) && t in s.states && s.states[t].Active?
    ensures s.states[t].peer in s.cm && s.cm[s.states[t].peer].active == Some(t)
  {
    assert Agrees(s.states, s.cm, s.states[t].peer);
    assert t in Actives(s.states, s.states[t].peer);
  }

  lemma MapNamesOnce(s: NodeState, p: Uid, t: Token)
    requires Accounts(s.states, s.cm) && p in s.cm && s.cm[p].active == Some(t)
    ensures t in s.states && s.states[t].Active? && s.states[t].peer == p
  {
    assert Agrees(s.states, s.cm, p);
    assert t in Actives(s.states, p);
  }

  class ConfigRefresher {
    const core: Core
    const config: ConfigWrapper

    constructor (core: Core, config: ConfigWrapper)
      ensures this.core == core && this.config == config
    {
      this.core, this.config := core, config;
    }

    /** Goes through the map and collects the connections that may not stay: all of them. */
    method PeersToTerminate(cfg: Settings, addr: Token -> Option<Ip>) returns (ts: seq<Token>)
      requires Good(core.View())
      ensures AllActive(core.View(), ts)
      ensures forall t :: t in ts <==> Doomed(cfg, addr, core.View(), t)
    {
      ghost var s := core.View();
      ts := [];
      var peers := core.cm.Keys;
      forall t | Doomed(cfg, addr, s, t) ensures s.states[t].peer in peers { MapNamesAll(s, t); }
      while peers != {}
        invariant peers <= core.cm.Keys && s == core.View()
        invariant forall i :: 0 <= i < |ts| ==> Doomed(cfg, addr, s, ts[i]) && s.states[ts[i]].peer !in peers
        invariant AllActive(s, ts)
        invariant forall t :: Doomed(cfg, addr, s, t) ==> t in ts || s.states[t].peer in peers
        decreases peers
      {
        var p :| p in peers;
        peers := peers - {p};
        var active := core.cm[p].active;
        if active.Some? {
          MapNamesOnce(s, p, active.value);
          var state, ip := core.states[active.value], addr(active.value);
          var shouldDrop;
          if ip.None? {
            shouldDrop := true;
          } else {
            match state.role {
              case AsNode => shouldDrop := cfg.nodeIps.Some? && ip.value !in cfg.nodeIps.value;
              case AsClient => shouldDrop := cfg.clientIps.Some? && ip.value !in cfg.clientIps.value;
            }
          }
          if shouldDrop {
            ts := ts + [active.value];
          }
        }
        forall t | Doomed(cfg, addr, s, t) && s.states[t].peer == p ensures t in ts {
          MapNamesAll(s, t);
        }
      }
    }

    /** The refresher's timeout. `read` is the configuration file if it could be read. A refresh that
        finds a change and a whitelist leaves in service exactly the connections that may stay;
        any other leaves the connections alone. */
    method Timeout(read: Option<Settings>, addr: Token -> Option<Ip>)
      requires Good(core.View()) && config.Valid() && core as object != config
      modifies core, config
      ensures Good(core.View()) && config.Valid()
      ensures config.uses == old(config.uses) + (if read.Some? then [Refresh(read.value)] else [])
      ensures var n := old(|config.uses|);
              if read.Some? && Reports(config.past, config.uses, n) && Restricts(read.value) then
                && (forall t ::
                      t in core.states <==> t in old(core.states) && !Doomed(read.value, addr, old(core.View()), t))
                && (forall t :: t in core.states ==> core.states[t] == old(core.states)[t])
                && (forall t :: t in core.states && core.states[t].Active? ==>
                      && addr(t).Some?
                      && (core.states[t].role == AsNode && read.value.nodeIps.Some? ==>
                            addr(t).value in read.value.nodeIps.value)
                      && (core.states[t].role == AsClient && read.value.clientIps.Some? ==>
                            addr(t).value in read.value.clientIps.value))
              else core.View() == old(core.View())
    {
      if read.None? {
        assert config.uses + [] == config.uses;
        return;
      }
      var cfg := read.value;
      var changed := config.CheckForRefreshAndResetModified(cfg);
      if !changed || (cfg.nodeIps.None? && cfg.clientIps.None?) {
        return;
      }
      var ts := PeersToTerminate(cfg, addr);
      EndAllStates(core.View(), ts);
      core.Dispatch(0, Purge(ts));
    }
  }
}
