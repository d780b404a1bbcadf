/**
 The connection manager and the reload that drives it, as objects updated in
 place.  Every method is tied to the corresponding function on manager states,
 and every method leaves the capability registry in agreement with the merged
 cached and live capabilities.
 */
module Federation {
  import opened OrderedDict
  import opened Registry
  import M = Manager
  import E = Eviction
  import R = Reload

  class ConnectionManager {
    var config: seq<M.ServerConfig>
    var conns: Dict<M.Conn>
    var evicted: Dict<Caps>
    var activity: map<string, real>
    var failed: set<string>
    var nextId: nat
    const maxLive: nat
    const idleTtl: nat
    const registry: CapabilityRegistry

    function View(): M.State
      reads this
    {
      M.State(config, conns, evicted, activity, failed, nextId)
    }

    /** Dict keys are unique and the registry shows exactly what is cached or live. */
    ghost predicate Valid()
      reads this, registry
    {
      M.Ok(View()) && registry.View() == M.Synced(View())
    }

    constructor (servers: seq<M.ServerConfig>, cap: nat, ttl: nat)
      ensures Valid() && View() == M.State(servers, [], [], map[], {}, 0)
      ensures maxLive == cap && idleTtl == ttl && fresh(registry)
    {
      config, conns, evicted, activity, failed, nextId := servers, [], [], map[], {}, 0;
      maxLive, idleTtl := cap, ttl;
      registry := new CapabilityRegistry();
      new;
      assert M.AsServers(M.Merged(View())) == [];
    }

    /** Cached capabilities first; those of connected backends override them. */
    method SyncRegistry()
      requires M.Ok(View())
      modifies registry
      ensures Valid()
    {
      var caps: Dict<Caps> := [];
      for i := 0 to |evicted|
        invariant caps == evicted[..i]
      {
        NewKey(evicted, i);
        caps := Put(caps, evicted[i].0, evicted[i].1);
      }
      assert caps == evicted;
      for i := 0 to |conns|
        invariant caps == M.Overlay(evicted, conns[..i])
      {
        assert conns[..i + 1][..i] == conns[..i];
        if conns[i].1.connected {
          caps := Put(caps, conns[i].0, conns[i].1.caps);
        }
      }
      assert conns[..|conns|] == conns;
      M.ServerIffRoute(View(), Server("", NO_CAPS));
      var changed := registry.SyncAll(M.AsServers(caps));
    }

    method Evict(name: string)
      requires Valid()
      modifies this, registry
      ensures Valid() && View() == M.Evict(old(View()), name)
    {
      if M.PinnedName(config, name) || !Has(conns, name) {
        return;
      }
      StartEvict(name);
      EndEvict(name);
    }

    /** A fresh connection object, connect() with the given outcome, then a sync. */
    method ConnectTimed(name: string, o: M.Outcome, now: real)
      requires M.Ok(View())
      modifies this, registry
      ensures Valid() && View() == M.Connect(old(View()), name, o, now)
    {
      E.ConnectGrows(View(), name, o, now);
      Dial(name);
      FinishConnect(name, o, now);
      SyncRegistry();
    }

    /** Up to the await of connect(): whatever was there, a new connection object takes its place. */
    method Dial(name: string)
      requires M.Ok(View())
      modifies this
      ensures M.Ok(View()) && Has(conns, name) && View() == M.NewConn(old(View()), name)
    {
      M.NewConnRoutes(View(), name);
      conns, nextId := Put(conns, name, M.Conn(nextId, false, NO_CAPS)), nextId + 1;
    }

    /** connect() has returned or raised. */
    method FinishConnect(name: string, o: M.Outcome, now: real)
      requires Has(conns, name)
      modifies this
      ensures View() == M.Finish(old(View()), name, o, now)
    {
      if o.Failed? {
        failed := failed + {name};
        return;
      }
      failed := failed - {name};
      if o.Up? {
        conns := Put(conns, name, Get(conns, name).(connected := true, caps := o.caps));
      }
      evicted := Del(evicted, name);
      if name !in activity {
        activity := activity[name := now];
      }
    }

    method ApplyLruCap(connecting: string)
      requires Valid()
      modifies this, registry
      ensures Valid() && View() == E.ApplyLruCap(old(View()), maxLive, connecting)
    {
      if maxLive == 0 {
        return;
      }
      var live: seq<string> := [];
      for i := 0 to |conns|
        invariant live == E.LiveNames(conns[..i], config, connecting)
      {
        assert conns[..i + 1][..i] == conns[..i];
        if conns[i].1.connected && !E.PinnedAny(config, conns[i].0) && conns[i].0 != connecting {
          live := live + [conns[i].0];
        }
      }
      assert conns[..|conns|] == conns;
      if |live| < maxLive {
        return;
      }
      var victim := E.SelectLruVictim(live, activity);
      Evict(victim.value);
    }

    method EnsureConnected(name: string, o: M.Outcome, now: real) returns (ok: bool)
      requires Valid()
      modifies this, registry
      ensures Valid() && View() == E.EnsureConnected(old(View()), maxLive, name, o, now)
      ensures ok == M.Connected(View(), name)
    {
      if M.Connected(View(), name) {
        return true;
      }
      var c := M.ConfigOf(config, name);
      if c.None? {
        return false;
      }
      if !c.value.IsPinned() {
        ApplyLruCap(name);
      }
      ConnectTimed(name, o, now);
      ok := M.Connected(View(), name);
    }

    method MarkActivity(name: string, now: real)
      requires Valid()
      modifies this
      ensures Valid() && View() == old(View()).(activity := old(activity)[name := now])
    {
      activity := activity[name := now];
    }

    /** One sweep of the idle reaper; `inFlight` are the backends with a call under way, and
        `ends` the order in which the drains of the evicted backends end. */
    method CheckAndEvict(inFlight: set<string>, now: real, ends: seq<string>)
      requires Valid()
      requires var names := E.ToEvict(config, View(), inFlight, idleTtl, now);
               forall n :: n in ends <==> n in names && E.Evictable(View(), n)
      modifies this, registry
      ensures Valid() && View() == E.EvictAll(old(View()), E.ToEvict(old(config), old(View()), inFlight, idleTtl, now))
    {
      var names := IdleBackends(inFlight, now);
      EvictTogether(names, ends);
    }

    method IdleBackends(inFlight: set<string>, now: real) returns (names: seq<string>)
      ensures names == E.ToEvict(config, View(), inFlight, idleTtl, now)
    {
      names := [];
      if idleTtl == 0 {
        return;
      }
      for i := 0 to |config|
        invariant names == E.ToEvict(config[..i], View(), inFlight, idleTtl, now)
      {
        assert config[..i + 1][..i] == config[..i];
        if E.Reapable(config[i], View(), inFlight, idleTtl, now) {
          names := names + [config[i].name];
        }
      }
      assert config[..|config|] == config;
    }

    /** The evictions start one after the other and end in any order, each end with a sync. */
    method EvictTogether(names: seq<string>, ends: seq<string>)
      requires Valid() && forall n :: n in ends <==> n in names && E.Evictable(View(), n)
      modifies this, registry
      ensures Valid() && View() == E.EvictAll(old(View()), names)
    {
      E.GatherIsSequential(View(), names, ends);
      StartEach(names);
      EndEach(ends);
    }

    method StartEach(names: seq<string>)
      requires M.Ok(View())
      modifies this
      ensures M.Ok(View()) && View() == E.BeginAll(old(View()), names)
    {
      for i := 0 to |names|
        invariant M.Ok(View()) && E.BeginAll(View(), names[i..]) == E.BeginAll(old(View()), names)
      {
        StartEvict(names[i]);
      }
    }

    method EndEach(ends: seq<string>)
      requires M.Ok(View()) && (ends == [] ==> Valid())
      modifies this, registry
      ensures Valid() && View() == E.ForgetAll(old(View()), ends)
    {
      for i := 0 to |ends|
        invariant M.Ok(View()) && (i > 0 || ends == [] ==> Valid())
        invariant E.ForgetAll(View(), ends[i..]) == E.ForgetAll(old(View()), ends)
      {
        EndEvict(ends[i]);
      }
    }

    /** evict() up to its await: the capabilities are cached and the backend stops serving. */
    method StartEvict(name: string)
      requires M.Ok(View())
      modifies this
      ensures M.Ok(View()) && View() == E.BeginEvict(old(View()), name)
    {
      E.BeginEvictFacts(View(), name, name);
      if Has(conns, name) && !M.PinnedName(config, name) {
        var c := Get(conns, name);
        evicted := Put(evicted, name, c.caps);
        conns := Put(conns, name, c.(connected := false));
      }
    }

    /** The rest of evict(), once the drain has ended. */
    method EndEvict(name: string)
      requires M.Ok(View())
      modifies this, registry
      ensures Valid() && View() == M.Forget(old(View()), name)
    {
      activity := activity - {name};
      SyncRegistry();
    }

    method AddServer(s: M.ServerConfig, o: M.Outcome, now: real) returns (ok: bool)
      requires M.Ok(View()) && (M.Connected(View(), s.name) ==> Valid())
      modifies this, registry
      ensures Valid() && View() == M.AddServer(old(View()), s, o, now)
      ensures ok == (!M.Connected(old(View()), s.name) && s.name !in failed)
      ensures !M.Connected(old(View()), s.name) ==> (s.name in failed <==> o.Failed?)
    {
      if M.Connected(View(), s.name) {
        return false;
      }
      if !M.Configured(config, s.name) {
        config := config + [s];
      }
      ConnectTimed(s.name, o, now);
      ok := s.name !in failed;
    }

    method RemoveServer(name: string) returns (ok: bool)
      requires Valid()
      modifies this, registry
      ensures Valid() && View() == M.RemoveServer(old(View()), name)
      ensures ok == Has(old(conns), name)
    {
      if !Has(conns, name) {
        return false;
      }
      DropServer(name);
      SyncRegistry();
      ok := true;
    }

    method DropServer(name: string)
      requires M.Ok(View()) && Has(conns, name)
      modifies this
      ensures M.Ok(View()) && View() == M.RemoveServer(old(View()), name)
    {
      RemoveKeepsOk(View(), name);
      conns, evicted, activity := Del(conns, name), Del(evicted, name), activity - {name};
      failed := failed - {name};
      config := M.WithoutServer(config, name);
    }

    method ReplaceServer(s: M.ServerConfig, o: M.Outcome, now: real) returns (ok: bool)
      requires Valid()
      modifies this, registry
      ensures Valid() && View() == M.ReplaceServer(old(View()), s, o, now)
      ensures ok == (s.name !in failed) && ok == !o.Failed?
    {
      if Has(conns, s.name) {
        PopServer(s);
      }
      ok := AddServer(s, o, now);
    }

    method PopServer(s: M.ServerConfig)
      requires M.Ok(View())
      modifies this
      ensures View() == M.Popped(old(View()), s) && M.Ok(View()) && !M.Connected(View(), s.name)
    {
      DelMap(conns, s.name);
      OrderedDict.Lookup(Del(conns, s.name), s.name);
      conns, failed := Del(conns, s.name), failed - {s.name};
      config := M.WithServer(config, s);
    }

    /** `ConfigReloader.apply_config`: the diff, then its three phases. */
    method ApplyConfig(new_: R.Config, o: string -> M.Outcome, now: real) returns (d: R.Diff)
      requires Valid()
      modifies this, registry
      ensures Valid() && View() == R.ApplyConfig(old(View()), new_, o, now)
      ensures d == R.DiffConfigs(old(config), new_)
    {
      d := R.ComputeDiff(config, new_);
      if d.IsEmpty() {
        return;
      }
      ApplyRemoves(d.removed);
      ApplyModifies(d.modified, o, now);
      ApplyAdds(d.added, o, now);
    }

    method ApplyRemoves(names: seq<string>)
      requires Valid()
      modifies this, registry
      ensures Valid() && View() == R.RemoveAll(old(View()), names)
    {
      for i := 0 to |names|
        invariant Valid() && View() == R.RemoveAll(old(View()), names[..i])
      {
        assert names[..i + 1][..i] == names[..i];
        var ok := RemoveServer(names[i]);
      }
      assert names[..|names|] == names;
    }

    method ApplyModifies(xs: seq<M.ServerConfig>, o: string -> M.Outcome, now: real)
      requires Valid()
      modifies this, registry
      ensures Valid() && View() == R.ReplaceAll(old(View()), xs, o, now)
    {
      for i := 0 to |xs|
        invariant Valid() && View() == R.ReplaceAll(old(View()), xs[..i], o, now)
      {
        assert xs[..i + 1][..i] == xs[..i];
        var ok := ReplaceServer(xs[i], o(xs[i].name), now);
      }
      assert xs[..|xs|] == xs;
    }

    method ApplyAdds(xs: seq<M.ServerConfig>, o: string -> M.Outcome, now: real)
      requires Valid()
      modifies this, registry
      ensures Valid() && View() == R.AddEach(old(View()), xs, o, now)
    {
      for i := 0 to |xs|
        invariant Valid() && View() == R.AddEach(old(View()), xs[..i], o, now)
      {
        assert xs[..i + 1][..i] == xs[..i];
        var ok := AddServer(xs[i], o(xs[i].name), now);
      }
      assert xs[..|xs|] == xs;
    }
  }

  lemma RemoveKeepsOk(m: M.State, name: string)
    requires M.Ok(m)
    ensures M.Ok(M.RemoveServer(m, name))
  {
    DelMap(m.conns, name);
    DelMap(m.evicted, name);
  }

  /** In a dict with unique keys an item's key does not occur before it. */
  lemma NewKey<V>(d: Dict<V>, i: nat)
    requires Distinct(d) && i < |d|
    ensures Put(d[..i], d[i].0, d[i].1) == d[..i + 1]
  {
    assert !Has(d[..i], d[i].0);
  }
}
