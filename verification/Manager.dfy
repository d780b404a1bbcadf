/**
 The connection manager's bookkeeping: configured servers, connection objects,
 cached capabilities of evicted backends and activity times.  Each function is
 one atomic section of the manager between two `await`s.
 */
module Manager {
  import opened Prelude
  import opened OrderedDict
  import opened Registry

  datatype Spawn = Eager | Lazy | Pinned

  /** The fields hashed by the config fingerprint. */
  datatype Hashed = Hashed(transport: string, command: string, args: seq<string>, env: map<string, string>,
                           url: string, headers: map<string, string>, enabled: bool)

  datatype ServerConfig = ServerConfig(name: string, hashed: Hashed, spawn: Spawn, alwaysOn: bool) {
    predicate IsPinned() {
      spawn.Pinned? || alwaysOn
    }
  }

  /** A connection object; `id` is its identity and `connected` whether its state is CONNECTED. */
  datatype Conn = Conn(id: nat, connected: bool, caps: Caps)

  datatype State = State(config: seq<ServerConfig>, conns: Dict<Conn>, evicted: Dict<Caps>,
                         activity: map<string, real>, failed: set<string>, nextId: nat)

  ghost predicate Ok(m: State) {
    Distinct(m.conns) && Distinct(m.evicted)
  }

  /** First configured server of that name. */
  function ConfigOf(config: seq<ServerConfig>, name: string): Option<ServerConfig> {
    if config == [] then None
    else if config[0].name == name then Some(config[0])
    else ConfigOf(config[1..], name)
  }

  predicate PinnedName(config: seq<ServerConfig>, name: string) {
    var c := ConfigOf(config, name);
    c.Some? && c.value.IsPinned()
  }

  predicate Connected(m: State, name: string) {
    Has(m.conns, name) && Get(m.conns, name).connected
  }

  // ---------------------------------------------------------------------
  // _sync_registry
  // ---------------------------------------------------------------------

  /** Cached capabilities first; those of connected backends override. */
  function Overlay(base: Dict<Caps>, conns: Dict<Conn>): Dict<Caps> {
    if conns == [] then base
    else
      var d := Overlay(base, conns[..|conns| - 1]);
      var (name, c) := conns[|conns| - 1];
      if c.connected then Put(d, name, c.caps) else d
  }

  function Merged(m: State): Dict<Caps> {
    Overlay(m.evicted, m.conns)
  }

  function AsServers(d: Dict<Caps>): seq<Server> {
    seq(|d|, i requires 0 <= i < |d| => Server(d[i].0, d[i].1))
  }

  /** The registry tables after a sync in this state. */
  function Synced(m: State): Tables {
    Sync(AsServers(Merged(m)))
  }

  /** What each name routes to, independently of any order. */
  function Routes(m: State): map<string, Caps> {
    ToMap(m.evicted) + LiveCaps(ToMap(m.conns))
  }

  function LiveCaps(conns: map<string, Conn>): map<string, Caps> {
    map n | n in conns && conns[n].connected :: conns[n].caps
  }

  lemma LiveCapsPut(conns: map<string, Conn>, name: string, c: Conn)
    ensures LiveCaps(conns[name := c]) ==
            if c.connected then LiveCaps(conns)[name := c.caps] else LiveCaps(conns) - {name}
  {
  }

  lemma {:induction false} OverlayRoutes(base: Dict<Caps>, conns: Dict<Conn>)
    requires Distinct(base) && Distinct(conns)
    ensures Distinct(Overlay(base, conns)) && ToMap(Overlay(base, conns)) == ToMap(base) + LiveCaps(ToMap(conns))
  {
    if conns != [] {
      var n := |conns| - 1;
      var init, name, c := conns[..n], conns[n].0, conns[n].1;
      OverlayRoutes(base, init);
      AppendConn(init, name, c);
      assert conns == init + [(name, c)];
      if c.connected {
        PutMap(Overlay(base, init), name, c.caps);
        MergePut(ToMap(base), LiveCaps(ToMap(init)), name, c.caps);
      }
    }
  }

  lemma AppendConn(conns: Dict<Conn>, name: string, c: Conn)
    requires Distinct(conns) && !Has(conns, name)
    ensures LiveCaps(ToMap(conns + [(name, c)])) ==
            if c.connected then LiveCaps(ToMap(conns))[name := c.caps] else LiveCaps(ToMap(conns))
  {
    assert conns + [(name, c)] == Put(conns, name, c);
    PutMap(conns, name, c);
    Lookup(conns, name);
    LiveCapsPut(ToMap(conns), name, c);
  }

  lemma MergePut(a: map<string, Caps>, b: map<string, Caps>, k: string, v: Caps)
    ensures (a + b)[k := v] == a + b[k := v]
  {
  }

  lemma ServerIffRoute(m: State, s: Server)
    requires Ok(m)
    ensures s in AsServers(Merged(m)) <==> s.name in Routes(m) && Routes(m)[s.name] == s.caps
    ensures DistinctNames(AsServers(Merged(m)))
  {
    var d, servers := Merged(m), AsServers(Merged(m));
    OverlayRoutes(m.evicted, m.conns);
    if s in servers {
      var i :| 0 <= i < |servers| && servers[i] == s;
      Item(d, i);
    }
    if s.name in Routes(m) && Routes(m)[s.name] == s.caps {
      Lookup(d, s.name);
      assert servers[Find(d, s.name)] == s;
    }
  }

  /** Sanitised ids differ and no capability name is produced twice. */
  ghost predicate UnambiguousRoutes(m: State) {
    Unambiguous(AsServers(Merged(m)))
  }

  /** The tables are a function of the routes: dict order plays no part. */
  lemma SameRoutesSameTables(a: State, b: State)
    requires Ok(a) && Ok(b) && UnambiguousRoutes(a) && Routes(a) == Routes(b)
    ensures Synced(a) == Synced(b)
  {
    forall s ensures s in AsServers(Merged(a)) <==> s in AsServers(Merged(b)) {
      ServerIffRoute(a, s);
      ServerIffRoute(b, s);
    }
    ServerIffRoute(b, Server("", NO_CAPS));
    SyncOrderFree(AsServers(Merged(a)), AsServers(Merged(b)));
  }

  // ---------------------------------------------------------------------
  // evict, step by step
  // ---------------------------------------------------------------------

  /** Copy the capabilities before tearing the connection down. */
  function CacheCaps(m: State, name: string): State
    requires Has(m.conns, name)
  {
    m.(evicted := Put(m.evicted, name, Get(m.conns, name).caps))
  }

  /** Draining or disconnecting: the connection is no longer CONNECTED, its capabilities stay. */
  function Drained(m: State, name: string): State
    requires Has(m.conns, name)
  {
    m.(conns := Put(m.conns, name, Get(m.conns, name).(connected := false)))
  }

  function Forget(m: State, name: string): State {
    m.(activity := m.activity - {name})
  }

  /** The whole of evict when nothing runs in between. */
  function Evict(m: State, name: string): State {
    if PinnedName(m.config, name) || !Has(m.conns, name) then m
    else
      var c := CacheCaps(m, name);
      Forget(Drained(c, name), name)
  }

  // --- _connect_timed ----------------------------------------------------

  datatype Outcome = Up(caps: Caps) | AuthRequired | Failed

  /** The new connection object, before connect() returns. */
  function NewConn(m: State, name: string): State {
    m.(conns := Put(m.conns, name, Conn(m.nextId, false, NO_CAPS)), nextId := m.nextId + 1)
  }

  /** connect() returned or raised. An OAuth refusal returns normally, so it drops the cache too. */
  function Finish(m: State, name: string, o: Outcome, now: real): State
    requires Has(m.conns, name)
  {
    var seeded := if name in m.activity then m.activity else m.activity[name := now];
    match o
    case Up(caps) =>
      m.(conns := Put(m.conns, name, Get(m.conns, name).(connected := true, caps := caps)),
         evicted := Del(m.evicted, name), activity := seeded, failed := m.failed - {name})
    case AuthRequired => m.(evicted := Del(m.evicted, name), activity := seeded, failed := m.failed - {name})
    case Failed => m.(failed := m.failed + {name})
  }

  function Connect(m: State, name: string, o: Outcome, now: real): State {
    var n := NewConn(m, name);
    PutHas(m.conns, name, Conn(m.nextId, false, NO_CAPS));
    Finish(n, name, o, now)
  }

  lemma PutHas<V>(d: Dict<V>, k: string, v: V)
    ensures Has(Put(d, k, v), k) && Get(Put(d, k, v), k) == v
  {
    var e := Put(d, k, v);
    assert e[if Has(d, k) then Find(d, k) else |d|].0 == k;
    if Has(d, k) {
      assert forall j :: 0 <= j < Find(d, k) ==> e[j].0 != k;
    }
  }

  // --- What each step does to the routes ---------------------------------

  /** Replacing one connection object changes that name's live capabilities only. */
  lemma PutConn(conns: Dict<Conn>, name: string, c: Conn)
    requires Distinct(conns)
    ensures Distinct(Put(conns, name, c)) && Has(Put(conns, name, c), name) && Get(Put(conns, name, c), name) == c
    ensures LiveCaps(ToMap(Put(conns, name, c))) ==
            if c.connected then LiveCaps(ToMap(conns))[name := c.caps] else LiveCaps(ToMap(conns)) - {name}
  {
    PutMap(conns, name, c);
    PutHas(conns, name, c);
    LiveCapsPut(ToMap(conns), name, c);
  }

  lemma LiveIffConnected(m: State, name: string)
    ensures name in LiveCaps(ToMap(m.conns)) <==> Connected(m, name)
    ensures Connected(m, name) ==> LiveCaps(ToMap(m.conns))[name] == Get(m.conns, name).caps
  {
    Lookup(m.conns, name);
  }

  lemma CacheCapsRoutes(m: State, name: string)
    requires Ok(m) && Has(m.conns, name)
    ensures Ok(CacheCaps(m, name)) && CacheCaps(m, name).conns == m.conns
    ensures ToMap(CacheCaps(m, name).evicted) == ToMap(m.evicted)[name := Get(m.conns, name).caps]
    ensures Connected(m, name) ==> Routes(CacheCaps(m, name)) == Routes(m)
    ensures !Connected(m, name) ==> Routes(CacheCaps(m, name)) == Routes(m)[name := Get(m.conns, name).caps]
  {
    PutMap(m.evicted, name, Get(m.conns, name).caps);
    LiveIffConnected(m, name);
  }

  lemma DrainedRoutes(m: State, name: string)
    requires Ok(m) && Has(m.conns, name)
    ensures Ok(Drained(m, name)) && !Connected(Drained(m, name), name)
    ensures !Connected(m, name) || (name in ToMap(m.evicted) && ToMap(m.evicted)[name] == Get(m.conns, name).caps) ==>
              Routes(Drained(m, name)) == Routes(m)
  {
    PutConn(m.conns, name, Get(m.conns, name).(connected := false));
    LiveIffConnected(m, name);
  }

  lemma NewConnRoutes(m: State, name: string)
    requires Ok(m)
    ensures Ok(NewConn(m, name)) && Has(NewConn(m, name).conns, name) && !Connected(NewConn(m, name), name)
    ensures !Connected(m, name) ==> Routes(NewConn(m, name)) == Routes(m)
  {
    PutConn(m.conns, name, Conn(m.nextId, false, NO_CAPS));
    LiveIffConnected(m, name);
  }

  /** A new connection object leaves the name to the cache. */
  lemma DialLeavesCache(m: State, name: string)
    requires Ok(m)
    ensures Has(m.evicted, name) ==> Routes(NewConn(m, name)) == Routes(m)[name := Get(m.evicted, name)]
    ensures !Has(m.evicted, name) ==> Routes(NewConn(m, name)) == Routes(m) - {name}
  {
    PutConn(m.conns, name, Conn(m.nextId, false, NO_CAPS));
    Lookup(m.evicted, name);
    CacheRemains(ToMap(m.evicted), LiveCaps(ToMap(m.conns)), name);
  }

  lemma CacheRemains(cached: map<string, Caps>, live: map<string, Caps>, name: string)
    ensures name in cached ==> cached + (live - {name}) == (cached + live)[name := cached[name]]
    ensures name !in cached ==> cached + (live - {name}) == (cached + live) - {name}
  {
  }

  /** The cache holds what the connection object reports. */
  predicate CacheCurrent(m: State, name: string)
    requires Has(m.conns, name)
  {
    Has(m.evicted, name) && Get(m.evicted, name) == Get(m.conns, name).caps
  }

  /** Replacing the connection object, as every connect attempt does first, keeps every route exactly
      when the backend is down or its capabilities are cached as they are. */
  lemma DialKeepsRoutesIff(m: State, name: string)
    requires Ok(m)
    ensures Routes(NewConn(m, name)) == Routes(m) <==> !Connected(m, name) || CacheCurrent(m, name)
  {
    NewConnRoutes(m, name);
    DialLeavesCache(m, name);
    LiveIffConnected(m, name);
    if Connected(m, name) {
      assert name in Routes(m) && Routes(m)[name] == Get(m.conns, name).caps;
      assert name !in Routes(m) - {name};
    }
  }

  lemma FinishUpRoutes(m: State, name: string, caps: Caps, now: real)
    requires Ok(m) && Has(m.conns, name) && !Connected(m, name)
    ensures Ok(Finish(m, name, Up(caps), now)) && Routes(Finish(m, name, Up(caps), now)) == Routes(m)[name := caps]
  {
    var c := Get(m.conns, name).(connected := true, caps := caps);
    DelMap(m.evicted, name);
    PutConn(m.conns, name, c);
    LiveIffConnected(m, name);
    UpRoutes(ToMap(m.evicted), LiveCaps(ToMap(m.conns)), name, caps);
  }

  lemma UpRoutes(cached: map<string, Caps>, live: map<string, Caps>, name: string, caps: Caps)
    ensures (cached - {name}) + live[name := caps] == (cached + live)[name := caps]
  {
  }

  lemma FinishAuthRoutes(m: State, name: string, now: real)
    requires Ok(m) && Has(m.conns, name) && !Connected(m, name)
    ensures Ok(Finish(m, name, AuthRequired, now)) && Routes(Finish(m, name, AuthRequired, now)) == Routes(m) - {name}
  {
    DelMap(m.evicted, name);
    LiveIffConnected(m, name);
    AuthRoutes(ToMap(m.evicted), LiveCaps(ToMap(m.conns)), name);
  }

  lemma AuthRoutes(cached: map<string, Caps>, live: map<string, Caps>, name: string)
    requires name !in live
    ensures (cached - {name}) + live == (cached + live) - {name}
  {
  }

  /** Evicting keeps every route exactly when the backend is connected or its cache
      already equals what the connection object reports. */
  lemma EvictKeepsRoutesIff(m: State, name: string)
    requires Ok(m) && Has(m.conns, name) && !PinnedName(m.config, name)
    ensures Ok(Evict(m, name))
    ensures Routes(Evict(m, name)) == Routes(m) <==>
            Connected(m, name) || CacheCurrent(m, name)
  {
    var c := CacheCaps(m, name);
    CacheCapsRoutes(m, name);
    DrainedRoutes(c, name);
    Lookup(m.evicted, name);
    LiveIffConnected(m, name);
    assert Routes(Evict(m, name)) == Routes(Drained(c, name)) == Routes(c);
    assert Routes(c)[name] == Get(m.conns, name).caps;
  }

  /** A connect attempt, whether or not another call has connected the backend in the meantime, keeps every
      route exactly when it fails and the dial kept them, when it comes up with the capabilities already
      routed, or when OAuth refuses a backend that has no route. */
  lemma ReconnectKeepsRoutesIff(m: State, name: string, o: Outcome, now: real)
    requires Ok(m)
    ensures Ok(Connect(m, name, o, now))
    ensures Routes(Connect(m, name, o, now)) == Routes(m) <==>
            match o
            case Failed => !Connected(m, name) || CacheCurrent(m, name)
            case Up(caps) => name in Routes(m) && Routes(m)[name] == caps
            case AuthRequired => name !in Routes(m)
  {
    NewConnRoutes(m, name);
    match o
    case Failed =>
      DialKeepsRoutesIff(m, name);
      assert Routes(Connect(m, name, o, now)) == Routes(NewConn(m, name));
    case Up(caps) =>
      ConnectUpRoutes(m, name, caps, now);
      assert Routes(m)[name := caps][name] == caps;
    case AuthRequired =>
      ConnectAuthRoutes(m, name, now);
      assert name !in Routes(m) - {name};
  }

  lemma ConnectUpRoutes(m: State, name: string, caps: Caps, now: real)
    requires Ok(m)
    ensures Ok(Connect(m, name, Up(caps), now)) && Routes(Connect(m, name, Up(caps), now)) == Routes(m)[name := caps]
  {
    NewConnRoutes(m, name);
    DialLeavesCache(m, name);
    FinishUpRoutes(NewConn(m, name), name, caps, now);
    Overwritten(Routes(m), name, if Has(m.evicted, name) then Get(m.evicted, name) else NO_CAPS, caps);
  }

  lemma ConnectAuthRoutes(m: State, name: string, now: real)
    requires Ok(m)
    ensures Ok(Connect(m, name, AuthRequired, now)) && Routes(Connect(m, name, AuthRequired, now)) == Routes(m) - {name}
  {
    NewConnRoutes(m, name);
    DialLeavesCache(m, name);
    FinishAuthRoutes(NewConn(m, name), name, now);
    Overwritten(Routes(m), name, if Has(m.evicted, name) then Get(m.evicted, name) else NO_CAPS, NO_CAPS);
  }

  lemma Overwritten(routes: map<string, Caps>, name: string, before: Caps, after: Caps)
    ensures routes[name := before][name := after] == routes[name := after]
    ensures (routes - {name})[name := after] == routes[name := after]
    ensures routes[name := before] - {name} == routes - {name}
    ensures routes - {name} - {name} == routes - {name}
  {
  }

  /** Evicting after a failed reconnect routes the name to no capabilities at all, so the routes
      survive exactly when that is what was cached. */
  lemma EvictAfterFailedReconnect(m: State, name: string, now: real)
    requires Ok(m) && !Connected(m, name) && !PinnedName(m.config, name)
    ensures Routes(Evict(Connect(m, name, Failed, now), name)) == Routes(m)[name := NO_CAPS]
    ensures Routes(Evict(Connect(m, name, Failed, now), name)) == Routes(m) <==>
            Has(m.evicted, name) && Get(m.evicted, name) == NO_CAPS
  {
    var n := NewConn(m, name);
    NewConnRoutes(m, name);
    PutHas(m.conns, name, Conn(m.nextId, false, NO_CAPS));
    var f := Connect(m, name, Failed, now);
    assert f == n.(failed := m.failed + {name}) && Routes(f) == Routes(n);
    CacheCapsRoutes(f, name);
    DrainedRoutes(CacheCaps(f, name), name);
    assert Routes(Evict(f, name)) == Routes(Drained(CacheCaps(f, name), name));
    Lookup(m.evicted, name);
    LiveIffConnected(m, name);
    assert Routes(m)[name := NO_CAPS][name] == NO_CAPS;
  }

  // ---------------------------------------------------------------------
  // add_server, remove_server, replace_server
  // ---------------------------------------------------------------------

  predicate Configured(config: seq<ServerConfig>, name: string) {
    exists i :: 0 <= i < |config| && config[i].name == name
  }

  function AddServer(m: State, s: ServerConfig, o: Outcome, now: real): State {
    if Connected(m, s.name) then m
    else Connect(if Configured(m.config, s.name) then m else m.(config := m.config + [s]), s.name, o, now)
  }

  function WithoutServer(config: seq<ServerConfig>, name: string): seq<ServerConfig> {
    if config == [] then []
    else
      var rest, s := WithoutServer(config[..|config| - 1], name), config[|config| - 1];
      if s.name == name then rest else rest + [s]
  }

  function RemoveServer(m: State, name: string): State {
    if !Has(m.conns, name) then m
    else State(WithoutServer(m.config, name), Del(m.conns, name), Del(m.evicted, name),
               m.activity - {name}, m.failed - {name}, m.nextId)
  }

  function WithServer(config: seq<ServerConfig>, s: ServerConfig): seq<ServerConfig> {
    seq(|config|, i requires 0 <= i < |config| => if config[i].name == s.name then s else config[i])
  }

  function ReplaceServer(m: State, s: ServerConfig, o: Outcome, now: real): State {
    AddServer(if Has(m.conns, s.name) then Popped(m, s) else m, s, o, now)
  }

  /** The old connection is gone and the configuration entry is the new one. */
  function Popped(m: State, s: ServerConfig): State {
    m.(conns := Del(m.conns, s.name), failed := m.failed - {s.name}, config := WithServer(m.config, s))
  }

  /** A removed server has no route, no connection, no cache, no timestamp and no configuration entry left. */
  lemma RemovedIsGone(m: State, name: string)
    requires Ok(m) && Has(m.conns, name)
    ensures var r := RemoveServer(m, name);
            && name !in Routes(r) && !Has(r.conns, name) && !Has(r.evicted, name)
            && name !in r.activity && name !in r.failed && !Configured(r.config, name)
  {
    DelMap(m.conns, name);
    DelMap(m.evicted, name);
    Lookup(Del(m.conns, name), name);
    Lookup(Del(m.evicted, name), name);
    WithoutIsGone(m.config, name);
  }

  lemma {:induction false} WithoutIsGone(config: seq<ServerConfig>, name: string)
    ensures !Configured(WithoutServer(config, name), name)
    ensures forall s :: s in WithoutServer(config, name) <==> s in config && s.name != name
  {
    if config != [] {
      WithoutIsGone(config[..|config| - 1], name);
      assert config == config[..|config| - 1] + [config[|config| - 1]];
    }
    forall i | 0 <= i < |WithoutServer(config, name)| ensures WithoutServer(config, name)[i].name != name {
      assert WithoutServer(config, name)[i] in WithoutServer(config, name);
    }
  }

  /** What a name routes to: a connected backend's own capabilities, else the cached ones, else nothing. */
  lemma RouteIs(m: State, name: string)
    requires Ok(m)
    ensures name in Routes(m) <==> (Has(m.conns, name) && Get(m.conns, name).connected) || Has(m.evicted, name)
    ensures Has(m.conns, name) && Get(m.conns, name).connected ==>
              name in Routes(m) && Routes(m)[name] == Get(m.conns, name).caps
    ensures !(Has(m.conns, name) && Get(m.conns, name).connected) && Has(m.evicted, name) ==>
              name in Routes(m) && Routes(m)[name] == Get(m.evicted, name)
  {
    LiveIffConnected(m, name);
    Lookup(m.evicted, name);
  }

  /** A connect attempt leaves a new connection object, connected with the reported capabilities exactly when it
      came up; only a failed one leaves the cache alone and is remembered as a failure. */
  lemma AttemptLeaves(m: State, name: string, o: Outcome, now: real)
    requires Ok(m)
    ensures var e := Connect(m, name, o, now);
            && Has(e.conns, name) && Get(e.conns, name) == Conn(m.nextId, o.Up?, if o.Up? then o.caps else NO_CAPS)
            && e.nextId == m.nextId + 1 && e.config == m.config
            && (Has(e.evicted, name) <==> Has(m.evicted, name) && o.Failed?)
            && (name in e.failed <==> o.Failed?)
            && (o.Failed? ==> e.evicted == m.evicted && e.activity == m.activity)
            && (!o.Failed? ==> name in e.activity && (name in m.activity ==> e.activity == m.activity))
  {
    NewConnRoutes(m, name);
    PutHas(m.conns, name, Conn(m.nextId, false, NO_CAPS));
    DelMap(m.evicted, name);
    Lookup(Del(m.evicted, name), name);
    if o.Up? {
      PutHas(NewConn(m, name).conns, name, Conn(m.nextId, true, o.caps));
    }
  }
}
