/**
 Evicting idle backends without losing their routes: the interleaved eviction
 protocol, the cap on live backends with its least-recently-used victim, and
 the idle reaper.
 */
module Eviction {
  import opened Prelude
  import opened OrderedDict
  import opened Registry
  import opened Manager

  // ---------------------------------------------------------------------
  // Interleaved evictions and connect attempts
  // ---------------------------------------------------------------------

  datatype Step =
    | Cache(name: string)                 // evict() has copied the capabilities
    | StopServing(name: string, id: nat)  // the connection object it drains left CONNECTED
    | Forgotten(name: string)             // its activity entry was dropped
    | Dials(name: string)                 // a connect attempt replaced the connection object
    | Settles(name: string, outcome: Outcome, now: real)

  /** `pending` holds the connection objects cached but not yet drained, `dialling` the
      backends with an attempt under way. */
  datatype Phase = Phase(m: Manager.State, pending: set<(string, nat)>, dialling: set<string>)

  /** Nothing but pinning, the drain under way and the connect gate restrains a step. */
  predicate Enabled(p: Phase, s: Step) {
    match s
    case Cache(n) => Has(p.m.conns, n) && !PinnedName(p.m.config, n)
    case StopServing(n, id) => (n, id) in p.pending
    case Forgotten(n) => true
    case Dials(n) => n !in p.dialling
    case Settles(n, _, _) => n in p.dialling && Has(p.m.conns, n)
  }

  predicate IsCurrent(m: Manager.State, n: string, id: nat) {
    Has(m.conns, n) && Get(m.conns, n).id == id
  }

  function Apply(p: Phase, s: Step): Phase
    requires Enabled(p, s)
  {
    match s
    case Cache(n) =>
      p.(m := CacheCaps(p.m, n),
         pending := if Connected(p.m, n) then p.pending + {(n, Get(p.m.conns, n).id)} else p.pending)
    case StopServing(n, id) =>
      p.(m := if IsCurrent(p.m, n, id) then Drained(p.m, n) else p.m, pending := p.pending - {(n, id)})
    case Forgotten(n) => p.(m := Forget(p.m, n))
    case Dials(n) => p.(m := NewConn(p.m, n), dialling := p.dialling + {n})
    case Settles(n, o, now) => p.(m := Finish(p.m, n, o, now), dialling := p.dialling - {n})
  }

  /** What must be found when the step is taken for it to keep every route. */
  predicate Harmless(p: Phase, s: Step)
    requires Enabled(p, s)
  {
    match s
    case Cache(n) => Connected(p.m, n) || CacheCurrent(p.m, n)
    case StopServing(_, _) => true
    case Forgotten(_) => true
    case Dials(n) => !Connected(p.m, n) || CacheCurrent(p.m, n)
    case Settles(n, o, _) =>
      match o
      case Failed => true
      case Up(caps) => Has(p.m.evicted, n) && Get(p.m.evicted, n) == caps
      case AuthRequired => !Has(p.m.evicted, n)
  }

  /** Every intermediate phase of a run, the start included. */
  ghost predicate IsRun(ps: seq<Phase>, steps: seq<Step>) {
    |ps| == |steps| + 1 && forall i :: 0 <= i < |steps| ==> Taken(ps, steps, i)
  }

  ghost predicate Taken(ps: seq<Phase>, steps: seq<Step>, i: nat)
    requires i < |steps| < |ps|
  {
    Enabled(ps[i], steps[i]) && ps[i + 1] == Apply(ps[i], steps[i])
  }

  /** Object identities are older than the counter. */
  ghost predicate IdsOk(p: Phase) {
    && (forall n :: Has(p.m.conns, n) ==> Get(p.m.conns, n).id < p.m.nextId)
    && (forall x :: x in p.pending ==> x.1 < p.m.nextId)
  }

  /** An object about to be drained is live and cached, unless it was replaced. */
  ghost predicate PendingOk(m: Manager.State, x: (string, nat)) {
    IsCurrent(m, x.0, x.1) ==> Connected(m, x.0) && CacheCurrent(m, x.0)
  }

  ghost predicate DiallingOk(m: Manager.State, n: string) {
    Has(m.conns, n) && !Connected(m, n)
  }

  ghost predicate PhaseOk(p: Phase) {
    && Ok(p.m) && IdsOk(p)
    && (forall x :: x in p.pending ==> PendingOk(p.m, x))
    && (forall n :: n in p.dialling ==> DiallingOk(p.m, n))
  }

  lemma OtherConn(conns: Dict<Conn>, name: string, c: Conn, n: string)
    requires Distinct(conns) && n != name
    ensures Has(Put(conns, name, c), n) <==> Has(conns, n)
    ensures Has(conns, n) ==> Get(Put(conns, name, c), n) == Get(conns, n)
  {
    PutMap(conns, name, c);
    Lookup(conns, n);
    Lookup(Put(conns, name, c), n);
  }

  lemma OtherCached(evicted: Dict<Caps>, name: string, caps: Caps, n: string)
    requires Distinct(evicted) && n != name
    ensures Has(Put(evicted, name, caps), n) <==> Has(evicted, n)
    ensures Has(evicted, n) ==> Get(Put(evicted, name, caps), n) == Get(evicted, n)
    ensures Has(Del(evicted, name), n) <==> Has(evicted, n)
    ensures Has(evicted, n) ==> Get(Del(evicted, name), n) == Get(evicted, n)
  {
    PutMap(evicted, name, caps);
    DelMap(evicted, name);
    Lookup(evicted, n);
    Lookup(Put(evicted, name, caps), n);
    Lookup(Del(evicted, name), n);
  }

  /** A step about one name leaves the others' objects and caches as they were. */
  lemma OthersUntouched(p: Phase, s: Step, n: string)
    requires Ok(p.m) && Enabled(p, s) && n != s.name
    ensures var m := Apply(p, s).m;
            && (Has(m.conns, n) <==> Has(p.m.conns, n)) && (Has(p.m.conns, n) ==> Get(m.conns, n) == Get(p.m.conns, n))
            && (Has(m.evicted, n) <==> Has(p.m.evicted, n))
            && (Has(p.m.evicted, n) ==> Get(m.evicted, n) == Get(p.m.evicted, n))
  {
    match s
    case Cache(k) => OtherCached(p.m.evicted, k, Get(p.m.conns, k).caps, n);
    case StopServing(k, id) =>
      if IsCurrent(p.m, k, id) {
        OtherConn(p.m.conns, k, Get(p.m.conns, k).(connected := false), n);
      }
    case Forgotten(_) =>
    case Dials(k) => OtherConn(p.m.conns, k, Conn(p.m.nextId, false, NO_CAPS), n);
    case Settles(k, o, _) =>
      OtherCached(p.m.evicted, k, NO_CAPS, n);
      if o.Up? {
        OtherConn(p.m.conns, k, Get(p.m.conns, k).(connected := true, caps := o.caps), n);
      }
  }

  /** The object and cache of the name a step is about. */
  lemma OwnAfter(p: Phase, s: Step)
    requires Ok(p.m) && Enabled(p, s)
    ensures var m, n := Apply(p, s).m, s.name;
            && Ok(m) && m.nextId >= p.m.nextId
            && (s.Cache? ==> m.conns == p.m.conns && CacheCurrent(m, n))
            && (s.StopServing? && IsCurrent(p.m, n, s.id) ==> Has(m.conns, n) && !Connected(m, n))
            && (s.StopServing? && IsCurrent(p.m, n, s.id) ==> Get(m.conns, n).id == s.id)
            && (s.Dials? ==> Has(m.conns, n) && Get(m.conns, n) == Conn(p.m.nextId, false, NO_CAPS))
            && (s.Dials? ==> m.nextId == p.m.nextId + 1)
            && (s.Settles? ==> Has(m.conns, n) && Get(m.conns, n).id == Get(p.m.conns, n).id)
  {
    match s
    case Cache(n) =>
      PutMap(p.m.evicted, n, Get(p.m.conns, n).caps);
      PutHas(p.m.evicted, n, Get(p.m.conns, n).caps);
    case StopServing(n, id) =>
      if IsCurrent(p.m, n, id) {
        PutConn(p.m.conns, n, Get(p.m.conns, n).(connected := false));
      }
    case Forgotten(_) =>
    case Dials(n) => PutConn(p.m.conns, n, Conn(p.m.nextId, false, NO_CAPS));
    case Settles(n, o, _) =>
      DelMap(p.m.evicted, n);
      if o.Up? {
        PutConn(p.m.conns, n, Get(p.m.conns, n).(connected := true, caps := o.caps));
      }
  }

  lemma StepKeepsIds(p: Phase, s: Step)
    requires PhaseOk(p) && Enabled(p, s)
    ensures IdsOk(Apply(p, s))
  {
    var q := Apply(p, s);
    OwnAfter(p, s);
    forall n | Has(q.m.conns, n) ensures Get(q.m.conns, n).id < q.m.nextId {
      if n != s.name {
        OthersUntouched(p, s, n);
      }
    }
  }

  lemma StepKeepsPending(p: Phase, s: Step, x: (string, nat))
    requires PhaseOk(p) && Enabled(p, s) && x in Apply(p, s).pending
    ensures PendingOk(Apply(p, s).m, x)
  {
    OwnAfter(p, s);
    if x.0 != s.name {
      OthersUntouched(p, s, x.0);
    }
    if x in p.pending {
      assert PendingOk(p.m, x) && x.1 < p.m.nextId;
    }
    if s.Settles? {
      assert DiallingOk(p.m, s.name);
    }
  }

  lemma StepKeepsDialling(p: Phase, s: Step, n: string)
    requires PhaseOk(p) && Enabled(p, s) && n in Apply(p, s).dialling
    ensures DiallingOk(Apply(p, s).m, n)
  {
    OwnAfter(p, s);
    if n in p.dialling {
      assert DiallingOk(p.m, n);
    }
    if n != s.name {
      OthersUntouched(p, s, n);
    }
  }

  lemma StepKeepsPhase(p: Phase, s: Step)
    requires PhaseOk(p) && Enabled(p, s)
    ensures PhaseOk(Apply(p, s))
  {
    var q := Apply(p, s);
    OwnAfter(p, s);
    StepKeepsIds(p, s);
    forall x | x in q.pending ensures PendingOk(q.m, x) {
      StepKeepsPending(p, s, x);
    }
    forall n | n in q.dialling ensures DiallingOk(q.m, n) {
      StepKeepsDialling(p, s, n);
    }
  }

  /** A step keeps every route exactly when it is harmless. */
  lemma StepKeepsRoutesIff(p: Phase, s: Step)
    requires PhaseOk(p) && Enabled(p, s)
    ensures Routes(Apply(p, s).m) == Routes(p.m) <==> Harmless(p, s)
  {
    match s
    case Cache(n) => CacheKeepsRoutesIff(p.m, n);
    case StopServing(n, id) =>
      assert PendingOk(p.m, (n, id));
      if IsCurrent(p.m, n, id) {
        Lookup(p.m.evicted, n);
        DrainedRoutes(p.m, n);
      }
    case Forgotten(_) =>
    case Dials(n) => DialKeepsRoutesIff(p.m, n);
    case Settles(n, o, now) =>
      assert DiallingOk(p.m, n);
      SettleKeepsRoutesIff(p.m, n, o, now);
  }

  lemma CacheKeepsRoutesIff(m: Manager.State, n: string)
    requires Ok(m) && Has(m.conns, n)
    ensures Routes(CacheCaps(m, n)) == Routes(m) <==> Connected(m, n) || CacheCurrent(m, n)
  {
    CacheCapsRoutes(m, n);
    Lookup(m.evicted, n);
    LiveIffConnected(m, n);
    if !Connected(m, n) {
      assert Routes(m)[n := Get(m.conns, n).caps][n] == Get(m.conns, n).caps;
    }
  }

  lemma SettleKeepsRoutesIff(m: Manager.State, n: string, o: Outcome, now: real)
    requires Ok(m) && Has(m.conns, n) && !Connected(m, n)
    ensures Routes(Finish(m, n, o, now)) == Routes(m) <==>
            match o
            case Failed => true
            case Up(caps) => Has(m.evicted, n) && Get(m.evicted, n) == caps
            case AuthRequired => !Has(m.evicted, n)
  {
    Lookup(m.evicted, n);
    LiveIffConnected(m, n);
    match o
    case Failed =>
    case Up(caps) =>
      FinishUpRoutes(m, n, caps, now);
      assert Routes(m)[n := caps][n] == caps;
    case AuthRequired =>
      FinishAuthRoutes(m, n, now);
      assert n !in Routes(m) - {n};
  }

  /** Nothing is going on. */
  ghost predicate Quiet(p: Phase) {
    Ok(p.m) && IdsOk(p) && p.pending == {} && p.dialling == {}
  }

  lemma {:induction false} RunKeepsPhase(ps: seq<Phase>, steps: seq<Step>, i: nat)
    requires IsRun(ps, steps) && Quiet(ps[0]) && i < |ps|
    ensures PhaseOk(ps[i])
  {
    if i > 0 {
      RunKeepsPhase(ps, steps, i - 1);
      assert Taken(ps, steps, i - 1);
      StepKeepsPhase(ps[i - 1], steps[i - 1]);
    }
  }

  ghost predicate HarmlessAt(ps: seq<Phase>, steps: seq<Step>, i: nat)
    requires i < |steps| < |ps|
  {
    Enabled(ps[i], steps[i]) && Harmless(ps[i], steps[i])
  }

  ghost predicate AllHarmless(ps: seq<Phase>, steps: seq<Step>)
    requires |ps| == |steps| + 1
  {
    forall i :: 0 <= i < |steps| ==> HarmlessAt(ps, steps, i)
  }

  lemma {:induction false} HarmlessRun(ps: seq<Phase>, steps: seq<Step>, i: nat)
    requires IsRun(ps, steps) && Quiet(ps[0]) && i < |ps| && AllHarmless(ps, steps)
    ensures PhaseOk(ps[i]) && Routes(ps[i].m) == Routes(ps[0].m)
  {
    RunKeepsPhase(ps, steps, i);
    if i > 0 {
      HarmlessRun(ps, steps, i - 1);
      assert Taken(ps, steps, i - 1) && HarmlessAt(ps, steps, i - 1);
      StepKeepsRoutesIff(ps[i - 1], steps[i - 1]);
    }
  }

  /** However evictions and connect attempts interleave, every route holds at every point exactly when every
      step was harmless: each dial found its backend down or its cache current, each eviction found it connected
      or its cache current, and each attempt failed or came up with what was cached. */
  lemma RoutesKeptIff(ps: seq<Phase>, steps: seq<Step>)
    requires IsRun(ps, steps) && Quiet(ps[0])
    ensures (forall i :: 0 <= i < |ps| ==> Routes(ps[i].m) == Routes(ps[0].m)) <==> AllHarmless(ps, steps)
  {
    if AllHarmless(ps, steps) {
      forall i | 0 <= i < |ps| ensures Routes(ps[i].m) == Routes(ps[0].m) {
        HarmlessRun(ps, steps, i);
      }
    }
    if forall i :: 0 <= i < |ps| ==> Routes(ps[i].m) == Routes(ps[0].m) {
      forall i | 0 <= i < |steps| ensures HarmlessAt(ps, steps, i) {
        RunKeepsPhase(ps, steps, i);
        assert Taken(ps, steps, i);
        assert Routes(ps[i + 1].m) == Routes(ps[i].m);
        StepKeepsRoutesIff(ps[i], steps[i]);
      }
    }
  }

  /** In such a run a sync at any point produces the very same tables. */
  lemma EvictionKeepsRouting(ps: seq<Phase>, steps: seq<Step>, i: nat)
    requires IsRun(ps, steps) && Quiet(ps[0]) && i < |ps| && AllHarmless(ps, steps) && UnambiguousRoutes(ps[0].m)
    ensures Synced(ps[i].m) == Synced(ps[0].m)
  {
    HarmlessRun(ps, steps, i);
    SameRoutesSameTables(ps[0].m, ps[i].m);
  }

  // ---------------------------------------------------------------------
  // select_lru_victim
  // ---------------------------------------------------------------------

  /** Timestamps with a missing entry as minus infinity. */
  predicate AtMost(a: Option<real>, b: Option<real>) {
    a.None? || (b.Some? && a.value <= b.value)
  }

  function LastSeen(activity: map<string, real>, name: string): Option<real> {
    if name in activity then Some(activity[name]) else None
  }

  /** `min(candidates, key=...)`: the first least recently active candidate. */
  function SelectLruVictim(candidates: seq<string>, activity: map<string, real>): (v: Option<string>)
    ensures v.None? <==> candidates == []
    ensures v.Some? ==> v.value in candidates
    ensures v.Some? ==> forall c :: c in candidates ==> AtMost(LastSeen(activity, v.value), LastSeen(activity, c))
    ensures v.Some? ==> forall c :: c in candidates && v.value in activity ==>
              c in activity && activity[v.value] <= activity[c]
  {
    if candidates == [] then None
    else
      var n := |candidates| - 1;
      var best := SelectLruVictim(candidates[..n], activity);
      assert forall c :: c in candidates ==> c in candidates[..n] || c == candidates[n];
      if best.None? || !AtMost(LastSeen(activity, best.value), LastSeen(activity, candidates[n]))
      then Some(candidates[n]) else best
  }

  // ---------------------------------------------------------------------
  // The live cap
  // ---------------------------------------------------------------------

  predicate PinnedAny(config: seq<ServerConfig>, name: string) {
    exists i :: 0 <= i < |config| && config[i].name == name && config[i].IsPinned()
  }

  /** Names of connected unpinned backends, in dict order, except the one being connected. */
  function LiveNames(conns: Dict<Conn>, config: seq<ServerConfig>, connecting: string): seq<string> {
    if conns == [] then []
    else
      var n := |conns| - 1;
      var names := LiveNames(conns[..n], config, connecting);
      if conns[n].1.connected && !PinnedAny(config, conns[n].0) && conns[n].0 != connecting
      then names + [conns[n].0] else names
  }

  function ApplyLruCap(m: Manager.State, cap: nat, connecting: string): Manager.State {
    var live := LiveNames(m.conns, m.config, connecting);
    if cap == 0 || |live| < cap then m
    else Evict(m, SelectLruVictim(live, m.activity).value)
  }

  function EnsureConnected(m: Manager.State, cap: nat, name: string, o: Outcome, now: real): Manager.State {
    var c := ConfigOf(m.config, name);
    if Connected(m, name) || c.None? then m
    else Connect(if c.value.IsPinned() then m else ApplyLruCap(m, cap, name), name, o, now)
  }

  /** The backends the cap counts. */
  ghost function LiveUnpinned(m: Manager.State): set<string> {
    LiveCount(ToMap(m.conns), m.config)
  }

  ghost function LiveCount(conns: map<string, Conn>, config: seq<ServerConfig>): set<string> {
    set n | n in conns && conns[n].connected && !PinnedAny(config, n)
  }

  lemma {:induction false} LiveNamesExact(conns: Dict<Conn>, config: seq<ServerConfig>, connecting: string)
    requires Distinct(conns)
    ensures forall n :: n in LiveNames(conns, config, connecting) <==>
              n in LiveCount(ToMap(conns), config) && n != connecting
  {
    if conns != [] {
      var k := |conns| - 1;
      LiveNamesExact(conns[..k], config, connecting);
      AppendLive(conns[..k], conns[k].0, conns[k].1, config);
      assert conns == conns[..k] + [(conns[k].0, conns[k].1)];
    }
  }

  lemma {:induction false} LiveNamesSize(conns: Dict<Conn>, config: seq<ServerConfig>, connecting: string)
    requires Distinct(conns)
    ensures |LiveNames(conns, config, connecting)| == |LiveCount(ToMap(conns), config) - {connecting}|
  {
    if conns == [] {
      assert LiveCount(ToMap(conns), config) - {connecting} == {};
    } else {
      var k := |conns| - 1;
      var init, name, c := conns[..k], conns[k].0, conns[k].1;
      LiveNamesSize(init, config, connecting);
      AppendLive(init, name, c, config);
      assert conns == init + [(name, c)];
      OneMore(LiveCount(ToMap(init), config), LiveCount(ToMap(conns), config), name, connecting,
              c.connected && !PinnedAny(config, name));
    }
  }

  lemma OneMore(before: set<string>, after: set<string>, name: string, except: string, more: bool)
    requires name !in before && after == before + if more then {name} else {}
    ensures |after - {except}| == |before - {except}| + if more && name != except then 1 else 0
  {
    if more && name != except {
      assert after - {except} == (before - {except}) + {name};
    } else {
      assert after - {except} == before - {except};
    }
  }

  lemma AppendLive(conns: Dict<Conn>, name: string, c: Conn, config: seq<ServerConfig>)
    requires Distinct(conns) && !Has(conns, name)
    ensures name !in LiveCount(ToMap(conns), config)
    ensures LiveCount(ToMap(conns + [(name, c)]), config) ==
            LiveCount(ToMap(conns), config) + if c.connected && !PinnedAny(config, name) then {name} else {}
  {
    assert conns + [(name, c)] == Put(conns, name, c);
    PutMap(conns, name, c);
    Lookup(conns, name);
  }

  lemma {:induction false} PinnedImpliesAny(config: seq<ServerConfig>, name: string)
    requires PinnedName(config, name)
    ensures PinnedAny(config, name)
  {
    if config[0].name != name {
      PinnedImpliesAny(config[1..], name);
      var i :| 0 <= i < |config[1..]| && config[1..][i].name == name && config[1..][i].IsPinned();
      assert config[i + 1].name == name;
    }
  }

  /** One more unpinned backend is live at most if that name connected; evicting takes its name out. */
  lemma EvictShrinks(m: Manager.State, name: string)
    requires Ok(m)
    ensures Ok(Evict(m, name)) && Evict(m, name).config == m.config
    ensures LiveUnpinned(Evict(m, name)) <= LiveUnpinned(m)
    ensures name in LiveUnpinned(m) ==> LiveUnpinned(Evict(m, name)) == LiveUnpinned(m) - {name}
    ensures forall n :: n != name ==> (Connected(Evict(m, name), n) <==> Connected(m, n))
  {
    Lookup(m.conns, name);
    if name in LiveUnpinned(m) && PinnedName(m.config, name) {
      PinnedImpliesAny(m.config, name);
    }
    if !PinnedName(m.config, name) && Has(m.conns, name) {
      PutMap(m.evicted, name, Get(m.conns, name).caps);
      var c := Get(m.conns, name).(connected := false);
      PutMap(m.conns, name, c);
      forall n | n != name ensures Connected(Evict(m, name), n) <==> Connected(m, n) {
        OtherConn(m.conns, name, c, n);
      }
    }
  }

  lemma ConnectGrows(m: Manager.State, name: string, o: Outcome, now: real)
    requires Ok(m)
    ensures Ok(Connect(m, name, o, now)) && Connect(m, name, o, now).config == m.config
    ensures LiveUnpinned(Connect(m, name, o, now)) <= LiveUnpinned(m) + {name}
  {
    PutMap(m.conns, name, Conn(m.nextId, false, NO_CAPS));
    PutHas(m.conns, name, Conn(m.nextId, false, NO_CAPS));
    var n := NewConn(m, name);
    DelMap(m.evicted, name);
    if o.Up? {
      PutMap(n.conns, name, Get(n.conns, name).(connected := true, caps := o.caps));
    }
  }

  lemma NotLive(m: Manager.State, name: string)
    requires !Connected(m, name)
    ensures name !in LiveUnpinned(m)
  {
    Lookup(m.conns, name);
  }

  /** `v` is live, unpinned and no live unpinned backend was active less recently. */
  ghost predicate LeastActive(m: Manager.State, v: string) {
    v in LiveUnpinned(m) &&
    forall n :: n in LiveUnpinned(m) ==> AtMost(LastSeen(m.activity, v), LastSeen(m.activity, n))
  }

  lemma LiveAre(m: Manager.State, name: string)
    requires Ok(m) && !Connected(m, name)
    ensures var live := LiveNames(m.conns, m.config, name);
            |live| == |LiveUnpinned(m)| && forall n :: n in live <==> n in LiveUnpinned(m)
  {
    LiveNamesExact(m.conns, m.config, name);
    LiveNamesSize(m.conns, m.config, name);
    NotLive(m, name);
    assert LiveUnpinned(m) - {name} == LiveUnpinned(m);
  }

  /** At the cap, exactly one backend leaves: the least recently active unpinned live one. */
  lemma CapVictim(m: Manager.State, cap: nat, name: string) returns (v: string)
    requires Ok(m) && !Connected(m, name) && 0 < cap <= |LiveUnpinned(m)|
    ensures LeastActive(m, v) && ApplyLruCap(m, cap, name) == Evict(m, v)
    ensures Ok(Evict(m, v)) && LiveUnpinned(Evict(m, v)) == LiveUnpinned(m) - {v}
  {
    var live := LiveNames(m.conns, m.config, name);
    LiveAre(m, name);
    v := SelectLruVictim(live, m.activity).value;
    EvictShrinks(m, v);
  }

  /** Below the cap, or without one, nobody leaves. */
  lemma BelowCap(m: Manager.State, cap: nat, name: string)
    requires Ok(m) && !Connected(m, name) && (cap == 0 || |LiveUnpinned(m)| < cap)
    ensures ApplyLruCap(m, cap, name) == m
  {
    LiveAre(m, name);
  }

  datatype CapOp =
    | Ensure(name: string, outcome: Outcome, now: real)
    | EvictOne(name: string)
    | Sweep(names: seq<string>)

  function EvictAll(m: Manager.State, names: seq<string>): Manager.State
    decreases |names|
  {
    if names == [] then m else EvictAll(Evict(m, names[0]), names[1..])
  }

  // --- A sweep starts its evictions together --------------------------------

  predicate Evictable(m: Manager.State, name: string) {
    Has(m.conns, name) && !PinnedName(m.config, name)
  }

  /** evict() up to its await. */
  function BeginEvict(m: Manager.State, name: string): Manager.State {
    if Evictable(m, name) then Drained(CacheCaps(m, name), name) else m
  }

  function BeginAll(m: Manager.State, names: seq<string>): Manager.State
    decreases |names|
  {
    if names == [] then m else BeginAll(BeginEvict(m, names[0]), names[1..])
  }

  /** The ends of the evictions, in the order in which the drains end. */
  function ForgetAll(m: Manager.State, ends: seq<string>): Manager.State
    decreases |ends|
  {
    if ends == [] then m else ForgetAll(Forget(m, ends[0]), ends[1..])
  }

  ghost function Leaving(m: Manager.State, names: seq<string>): set<string> {
    set n | n in names && Evictable(m, n)
  }

  lemma BeginEvictFacts(m: Manager.State, name: string, n: string)
    requires Ok(m)
    ensures Ok(BeginEvict(m, name)) && BeginEvict(m, name).activity == m.activity
    ensures Evictable(BeginEvict(m, name), n) <==> Evictable(m, n)
  {
    if Evictable(m, name) {
      var c := Get(m.conns, name).(connected := false);
      PutMap(m.evicted, name, Get(m.conns, name).caps);
      PutMap(m.conns, name, c);
      PutHas(m.conns, name, c);
      if n != name {
        OtherConn(m.conns, name, c, n);
      }
    }
  }

  lemma {:induction false} BeginAllKeepsActivity(m: Manager.State, names: seq<string>, activity: map<string, real>)
    ensures BeginAll(m.(activity := activity), names) == BeginAll(m, names).(activity := activity)
    decreases |names|
  {
    if names != [] {
      BeginAllKeepsActivity(BeginEvict(m, names[0]), names[1..], activity);
    }
  }

  lemma {:induction false} ForgetAllIs(m: Manager.State, ends: seq<string>)
    ensures ForgetAll(m, ends) == m.(activity := m.activity - set n | n in ends)
    decreases |ends|
  {
    if ends != [] {
      ForgetAllIs(Forget(m, ends[0]), ends[1..]);
      assert ends == [ends[0]] + ends[1..];
      assert m.activity - {ends[0]} - (set n | n in ends[1..]) == m.activity - set n | n in ends;
    } else {
      assert m.activity - (set n | n in ends) == m.activity;
    }
  }

  lemma {:induction false} EvictAllIs(m: Manager.State, names: seq<string>)
    requires Ok(m)
    ensures EvictAll(m, names) == BeginAll(m, names).(activity := m.activity - Leaving(m, names))
    ensures Leaving(m, names) == {} ==> BeginAll(m, names) == m
    decreases |names|
  {
    if names == [] {
      assert m.activity - Leaving(m, names) == m.activity;
    } else {
      var n, rest := names[0], names[1..];
      var b := BeginEvict(m, n);
      forall x ensures Evictable(b, x) <==> Evictable(m, x) {
        BeginEvictFacts(m, n, x);
      }
      assert names == [n] + rest;
      EvictAllIs(Evict(m, n), rest);
      BeginAllKeepsActivity(b, rest, Evict(m, n).activity);
      EvictAllStep(m, names);
    }
  }

  lemma EvictAllStep(m: Manager.State, names: seq<string>)
    requires Ok(m) && names != []
    ensures var n, rest := names[0], names[1..];
            && Evict(m, n) == BeginEvict(m, n).(activity := Evict(m, n).activity)
            && Evict(m, n).activity - Leaving(Evict(m, n), rest) == m.activity - Leaving(m, names)
            && (Leaving(m, names) == {} ==> !Evictable(m, n) && Leaving(m, rest) == {})
  {
    var n, rest := names[0], names[1..];
    assert names == [n] + rest;
    assert Evictable(m, n) ==> n in Leaving(m, names);
    forall x ensures Evictable(Evict(m, n), x) <==> Evictable(m, x) {
      BeginEvictFacts(m, n, x);
    }
    assert Leaving(m, rest) <= Leaving(m, names);
  }

  /** In whatever order the drains end, a sweep leaves the state of evicting one backend after the other. */
  lemma GatherIsSequential(m: Manager.State, names: seq<string>, ends: seq<string>)
    requires Ok(m) && forall n :: n in ends <==> n in names && Evictable(m, n)
    ensures ForgetAll(BeginAll(m, names), ends) == EvictAll(m, names)
    ensures ends == [] ==> BeginAll(m, names) == m
  {
    EvictAllIs(m, names);
    ForgetAllIs(BeginAll(m, names), ends);
    BeginAllKeepsActivity(m, names, m.activity);
    assert (set n | n in ends) == Leaving(m, names);
  }

  function ApplyCapOp(m: Manager.State, cap: nat, op: CapOp): Manager.State {
    match op
    case Ensure(name, o, now) => EnsureConnected(m, cap, name, o, now)
    case EvictOne(name) => Evict(m, name)
    case Sweep(names) => EvictAll(m, names)
  }

  function RunCapOps(m: Manager.State, cap: nat, ops: seq<CapOp>): Manager.State {
    if ops == [] then m
    else ApplyCapOp(RunCapOps(m, cap, ops[..|ops| - 1]), cap, ops[|ops| - 1])
  }

  lemma {:induction false} EvictAllShrinks(m: Manager.State, names: seq<string>)
    requires Ok(m)
    ensures Ok(EvictAll(m, names)) && LiveUnpinned(EvictAll(m, names)) <= LiveUnpinned(m)
    decreases |names|
  {
    if names != [] {
      EvictShrinks(m, names[0]);
      EvictAllShrinks(Evict(m, names[0]), names[1..]);
    }
  }

  lemma CapMakesRoom(m: Manager.State, cap: nat, name: string)
    requires Ok(m) && !Connected(m, name) && cap > 0
    ensures var m1 := ApplyLruCap(m, cap, name);
            Ok(m1) && |LiveUnpinned(m1)| + 1 <= Max(|LiveUnpinned(m)|, cap)
  {
    if |LiveUnpinned(m)| < cap {
      BelowCap(m, cap, name);
    } else {
      var v := CapVictim(m, cap, name);
    }
  }

  lemma EnsureBounded(m: Manager.State, cap: nat, name: string, o: Outcome, now: real)
    requires Ok(m) && cap > 0
    ensures Ok(EnsureConnected(m, cap, name, o, now))
    ensures |LiveUnpinned(EnsureConnected(m, cap, name, o, now))| <= Max(|LiveUnpinned(m)|, cap)
  {
    var c := ConfigOf(m.config, name);
    if !Connected(m, name) && c.Some? {
      var after := LiveUnpinned(EnsureConnected(m, cap, name, o, now));
      if c.value.IsPinned() {
        ConnectGrows(m, name, o, now);
        PinnedImpliesAny(m.config, name);
        assert name !in after;
        SubsetSize(after, LiveUnpinned(m));
      } else {
        CapMakesRoom(m, cap, name);
        var m1 := ApplyLruCap(m, cap, name);
        ConnectGrows(m1, name, o, now);
        SubsetSize(after, LiveUnpinned(m1) + {name});
      }
    }
  }

  /** Over every sequence of non-overlapping operations the number of live unpinned
      backends never exceeds the larger of the cap and what it started with. */
  lemma {:induction false} LiveCapHolds(m: Manager.State, cap: nat, ops: seq<CapOp>)
    requires Ok(m) && cap > 0
    ensures Ok(RunCapOps(m, cap, ops))
    ensures |LiveUnpinned(RunCapOps(m, cap, ops))| <= Max(|LiveUnpinned(m)|, cap)
  {
    if ops != [] {
      var before, op := RunCapOps(m, cap, ops[..|ops| - 1]), ops[|ops| - 1];
      LiveCapHolds(m, cap, ops[..|ops| - 1]);
      match op
      case Ensure(name, o, now) => EnsureBounded(before, cap, name, o, now);
      case EvictOne(name) =>
        EvictShrinks(before, name);
        SubsetSize(LiveUnpinned(Evict(before, name)), LiveUnpinned(before));
      case Sweep(names) =>
        EvictAllShrinks(before, names);
        SubsetSize(LiveUnpinned(EvictAll(before, names)), LiveUnpinned(before));
    }
  }

  // ---------------------------------------------------------------------
  // The live cap when calls overlap
  // ---------------------------------------------------------------------

  /** Steps of overlapping ensure_connected() calls for unpinned backends. */
  datatype Overlap =
    | Enter(call: nat, name: string)             // up to the first await: the cap is applied, the victim stops serving
    | Dial(call: nat)                            // a new connection object replaces the old one
    | Settle(call: nat, outcome: Outcome, now: real)
    | Leave(call: nat)                           // it joined another attempt, or was cancelled
    | EvictAny(name: string)

  /** `busy` maps the calls past their first await to the backend they connect. */
  datatype Shared = Shared(m: Manager.State, busy: map<nat, string>)

  predicate CanStep(p: Shared, s: Overlap) {
    match s
    case Enter(c, name) => c !in p.busy
    case Dial(c) => c in p.busy
    case Settle(c, _, _) => c in p.busy
    case Leave(c) => c in p.busy
    case EvictAny(_) => true
  }

  function Stepped(p: Shared, cap: nat, s: Overlap): Shared
    requires CanStep(p, s)
  {
    match s
    case Enter(c, name) =>
      var config := ConfigOf(p.m.config, name);
      if Connected(p.m, name) || config.None? || config.value.IsPinned() then p
      else Shared(ApplyLruCap(p.m, cap, name), p.busy[c := name])
    case Dial(c) => p.(m := NewConn(p.m, p.busy[c]))
    case Settle(c, o, now) =>
      Shared(if Has(p.m.conns, p.busy[c]) then Finish(p.m, p.busy[c], o, now) else p.m, p.busy - {c})
    case Leave(c) => p.(busy := p.busy - {c})
    case EvictAny(name) => p.(m := Evict(p.m, name))
  }

  ghost predicate IsOverlap(ps: seq<Shared>, cap: nat, steps: seq<Overlap>) {
    |ps| == |steps| + 1 && forall i :: 0 <= i < |steps| ==> OverlapStep(ps, cap, steps, i)
  }

  ghost predicate OverlapStep(ps: seq<Shared>, cap: nat, steps: seq<Overlap>, i: nat)
    requires i < |steps| < |ps|
  {
    CanStep(ps[i], steps[i]) && ps[i + 1] == Stepped(ps[i], cap, steps[i])
  }

  /** Backends that are live or may still come up. */
  ghost function Load(p: Shared): nat {
    |LiveUnpinned(p.m)| + |p.busy|
  }

  lemma NewConnShrinks(m: Manager.State, name: string)
    requires Ok(m)
    ensures Ok(NewConn(m, name)) && |LiveUnpinned(NewConn(m, name))| <= |LiveUnpinned(m)|
  {
    PutMap(m.conns, name, Conn(m.nextId, false, NO_CAPS));
    SubsetSize(LiveUnpinned(NewConn(m, name)), LiveUnpinned(m));
  }

  lemma FinishGrows(m: Manager.State, name: string, o: Outcome, now: real)
    requires Ok(m) && Has(m.conns, name)
    ensures Ok(Finish(m, name, o, now)) && |LiveUnpinned(Finish(m, name, o, now))| <= |LiveUnpinned(m)| + 1
  {
    DelMap(m.evicted, name);
    if o.Up? {
      PutMap(m.conns, name, Get(m.conns, name).(connected := true, caps := o.caps));
    }
    SubsetSize(LiveUnpinned(Finish(m, name, o, now)), LiveUnpinned(m) + {name});
  }

  lemma BusySize(busy: map<nat, string>, c: nat, name: string)
    ensures c !in busy ==> |busy[c := name]| == |busy| + 1
    ensures c in busy ==> |busy - {c}| == |busy| - 1
  {
    if c in busy {
      assert (busy - {c}).Keys == busy.Keys - {c};
    } else {
      assert busy[c := name].Keys == busy.Keys + {c};
    }
  }

  /** A step adds to the load only when a call enters below the cap. */
  lemma LoadStep(p: Shared, cap: nat, s: Overlap)
    requires Ok(p.m) && cap > 0 && CanStep(p, s)
    ensures var q := Stepped(p, cap, s);
            Ok(q.m) && Load(q) <= Max(Load(p), cap - 1 + |q.busy|)
  {
    match s
    case Enter(c, name) =>
      if !Connected(p.m, name) {
        CapMakesRoom(p.m, cap, name);
        BusySize(p.busy, c, name);
      }
    case Dial(c) => NewConnShrinks(p.m, p.busy[c]);
    case Settle(c, o, now) =>
      BusySize(p.busy, c, "");
      if Has(p.m.conns, p.busy[c]) {
        FinishGrows(p.m, p.busy[c], o, now);
      }
    case Leave(c) => BusySize(p.busy, c, "");
    case EvictAny(name) =>
      EvictShrinks(p.m, name);
      SubsetSize(LiveUnpinned(Evict(p.m, name)), LiveUnpinned(p.m));
  }

  lemma {:induction false} LoadBounded(ps: seq<Shared>, cap: nat, steps: seq<Overlap>, degree: nat, i: nat)
    requires IsOverlap(ps, cap, steps) && Ok(ps[0].m) && ps[0].busy == map[] && cap > 0 && i < |ps|
    requires forall j :: 0 <= j < |ps| ==> |ps[j].busy| <= degree
    ensures Ok(ps[i].m) && Load(ps[i]) <= Max(|LiveUnpinned(ps[0].m)|, cap - 1 + degree)
  {
    if i > 0 {
      LoadBounded(ps, cap, steps, degree, i - 1);
      assert OverlapStep(ps, cap, steps, i - 1);
      LoadStep(ps[i - 1], cap, steps[i - 1]);
    }
  }

  /** However at most `degree` calls overlap, with each other and with evictions, the cap is
      overshot by less than that number; with one call at a time it is kept. */
  lemma OvershootBounded(ps: seq<Shared>, cap: nat, steps: seq<Overlap>, degree: nat, i: nat)
    requires IsOverlap(ps, cap, steps) && Ok(ps[0].m) && ps[0].busy == map[] && cap > 0 && i < |ps|
    requires forall j :: 0 <= j < |ps| ==> |ps[j].busy| <= degree
    ensures |LiveUnpinned(ps[i].m)| <= Max(|LiveUnpinned(ps[0].m)|, cap + degree - 1)
  {
    LoadBounded(ps, cap, steps, degree, i);
  }

  /** An overlapping run continued by one step. */
  lemma ExtendOverlap(ps: seq<Shared>, cap: nat, steps: seq<Overlap>, s: Overlap)
    returns (ps': seq<Shared>, steps': seq<Overlap>)
    requires IsOverlap(ps, cap, steps) && CanStep(ps[|steps|], s)
    ensures IsOverlap(ps', cap, steps') && steps' == steps + [s] && ps' == ps + [Stepped(ps[|steps|], cap, s)]
  {
    ps', steps' := ps + [Stepped(ps[|steps|], cap, s)], steps + [s];
    forall i | 0 <= i < |steps'| ensures OverlapStep(ps', cap, steps', i) {
      assert i < |steps| ==> OverlapStep(ps, cap, steps, i);
    }
  }

  /** The situation in which two calls for one evicted backend meet a full cap. */
  ghost predicate EvictedAtCap(m: Manager.State, cap: nat, name: string) {
    && Ok(m) && !Connected(m, name) && Has(m.evicted, name) && cap > 0 && |LiveUnpinned(m)| == cap
    && ConfigOf(m.config, name).Some? && !ConfigOf(m.config, name).value.IsPinned()
  }

  /** The first call: one other backend leaves, this one stays evicted, and the cap has room again. */
  lemma FirstCallMakesRoom(m: Manager.State, cap: nat, name: string)
    requires EvictedAtCap(m, cap, name)
    ensures var m1 := ApplyLruCap(m, cap, name);
            && Ok(m1) && m1.config == m.config && !Connected(m1, name) && |LiveUnpinned(m1)| < cap
            && Has(m1.evicted, name) && Get(m1.evicted, name) == Get(m.evicted, name)
  {
    var v := CapVictim(m, cap, name);
    NotLive(m, name);
    assert v in LiveUnpinned(m) && v != name;
    EvictShrinks(m, v);
    if Has(m.conns, v) {
      OtherCached(m.evicted, v, Get(m.conns, v).caps, name);
    }
  }

  /** Coming up with the cached capabilities drops the cache. */
  lemma UpDropsCache(m: Manager.State, name: string, caps: Caps, now: real)
    requires Ok(m) && Has(m.evicted, name)
    ensures var up := Connect(m, name, Up(caps), now); Ok(up) && Connected(up, name) && !Has(up.evicted, name)
  {
    NewConnRoutes(m, name);
    var n := NewConn(m, name);
    PutConn(n.conns, name, Get(n.conns, name).(connected := true, caps := caps));
    DelMap(m.evicted, name);
    Lookup(Del(m.evicted, name), name);
  }

  lemma FailedDialDropsUncached(m: Manager.State, name: string, now: real)
    requires Ok(m) && !Has(m.evicted, name)
    ensures name !in Routes(NewConn(m, name)) && Has(NewConn(m, name).conns, name)
    ensures name !in Routes(Finish(NewConn(m, name), name, Failed, now))
  {
    NewConnRoutes(m, name);
    DialLeavesCache(m, name);
    assert Routes(Finish(NewConn(m, name), name, Failed, now)) == Routes(NewConn(m, name));
  }

  lemma Dialled(p: Shared, cap: nat, call: nat, name: string, o: Outcome, now: real)
    requires Ok(p.m) && call in p.busy && p.busy[call] == name
    ensures var d := Stepped(p, cap, Dial(call));
            && d == Shared(NewConn(p.m, name), p.busy) && Has(d.m.conns, name)
            && Stepped(d, cap, Settle(call, o, now)) == Shared(Connect(p.m, name, o, now), p.busy - {call})
  {
    NewConnRoutes(p.m, name);
  }

  /** Two calls for one evicted backend at a full cap lose its routes. The first applies the cap and waits for its
      victim to drain; the second finds room, dials and comes up with the cached capabilities, which drops the
      cache; then the first dials without looking again, and fails. */
  lemma OverlappingCallsDropRoutes(m: Manager.State, cap: nat, name: string, now: real)
    returns (ps: seq<Shared>, steps: seq<Overlap>)
    requires EvictedAtCap(m, cap, name)
    ensures IsOverlap(ps, cap, steps) && ps[0] == Shared(m, map[]) && name in Routes(m)
    ensures steps == [Enter(0, name), Enter(1, name), Dial(1), Settle(1, Up(Get(m.evicted, name)), now),
                      Dial(0), Settle(0, Failed, now)]
    ensures name !in Routes(ps[5].m) && name !in Routes(ps[6].m)
  {
    Lookup(m.evicted, name);
    var m2;
    ps, steps, m2 := SecondComesUp(m, cap, name, now);
    Dialled(ps[4], cap, 0, name, Failed, now);
    FailedDialDropsUncached(m2, name, now);
    ps, steps := ExtendOverlap(ps, cap, steps, Dial(0));
    ps, steps := ExtendOverlap(ps, cap, steps, Settle(0, Failed, now));
  }

  lemma SecondComesUp(m: Manager.State, cap: nat, name: string, now: real)
    returns (ps: seq<Shared>, steps: seq<Overlap>, m2: Manager.State)
    requires EvictedAtCap(m, cap, name)
    ensures IsOverlap(ps, cap, steps) && ps[0] == Shared(m, map[])
    ensures steps == [Enter(0, name), Enter(1, name), Dial(1), Settle(1, Up(Get(m.evicted, name)), now)]
    ensures ps[4] == Shared(m2, map[0 := name]) && Ok(m2) && !Has(m2.evicted, name)
  {
    var caps, m1 := Get(m.evicted, name), ApplyLruCap(m, cap, name);
    var p2 := Shared(m1, map[0 := name, 1 := name]);
    ps, steps := BothEnter(m, cap, name);
    UpDropsCache(m1, name, caps, now);
    m2 := Connect(m1, name, Up(caps), now);
    Dialled(p2, cap, 1, name, Up(caps), now);
    ps, steps := ExtendOverlap(ps, cap, steps, Dial(1));
    ps, steps := ExtendOverlap(ps, cap, steps, Settle(1, Up(caps), now));
    assert p2.busy - {1} == map[0 := name];
  }

  lemma BothEnter(m: Manager.State, cap: nat, name: string) returns (ps: seq<Shared>, steps: seq<Overlap>)
    requires EvictedAtCap(m, cap, name)
    ensures var m1 := ApplyLruCap(m, cap, name);
            && Ok(m1) && Has(m1.evicted, name)
            && IsOverlap(ps, cap, steps) && steps == [Enter(0, name), Enter(1, name)]
            && |ps| == 3 && ps[0] == Shared(m, map[]) && ps[2] == Shared(m1, map[0 := name, 1 := name])
  {
    var m1 := ApplyLruCap(m, cap, name);
    FirstCallMakesRoom(m, cap, name);
    BelowCap(m1, cap, name);
    ps, steps := [Shared(m, map[])], [];
    ps, steps := ExtendOverlap(ps, cap, steps, Enter(0, name));
    ps, steps := ExtendOverlap(ps, cap, steps, Enter(1, name));
  }

  // ---------------------------------------------------------------------
  // The idle reaper
  // ---------------------------------------------------------------------

  datatype Activity =
    | Mark(name: string, at: real)  // a routed call completed
    | Seed(name: string, at: real)  // a connect succeeded
    | Drop(name: string, at: real)  // evicted, removed or disconnected

  function Record(activity: map<string, real>, e: Activity): map<string, real> {
    match e
    case Mark(n, at) => activity[n := at]
    case Seed(n, at) => if n in activity then activity else activity[n := at]
    case Drop(n, at) => activity - {n}
  }

  function ActivityAfter(history: seq<Activity>): map<string, real> {
    if history == [] then map[]
    else Record(ActivityAfter(history[..|history| - 1]), history[|history| - 1])
  }

  /** The sweep's eligibility tests, in the order of the code. */
  predicate Reapable(s: ServerConfig, m: Manager.State, inFlight: set<string>, ttl: nat, now: real) {
    && s.spawn.Lazy? && !s.IsPinned() && Connected(m, s.name) && s.name !in inFlight
    && s.name in m.activity && now - m.activity[s.name] > ttl as real
  }

  function ToEvict(config: seq<ServerConfig>, m: Manager.State, inFlight: set<string>, ttl: nat,
                   now: real): seq<string> {
    if ttl == 0 || config == [] then []
    else
      var n := |config| - 1;
      var names := ToEvict(config[..n], m, inFlight, ttl, now);
      if Reapable(config[n], m, inFlight, ttl, now) then names + [config[n].name] else names
  }

  ghost predicate ClockMonotone(history: seq<Activity>, now: real) {
    && (forall i, j :: 0 <= i < j < |history| ==> history[i].at <= history[j].at)
    && (forall i :: 0 <= i < |history| ==> history[i].at <= now)
  }

  /** Event `i` starts a new timestamp: no entry was present just before it. */
  ghost predicate FirstConnect(history: seq<Activity>, i: int) {
    0 <= i < |history| && history[i].Seed? && history[i].name !in ActivityAfter(history[..i])
  }

  /** A completed call, or the first connect since the timestamp was cleared. */
  ghost predicate Restarts(history: seq<Activity>, i: int) {
    0 <= i < |history| && (history[i].Mark? || FirstConnect(history, i))
  }

  predicate IsReapable(s: ServerConfig) {
    s.spawn.Lazy? && !s.IsPinned()
  }

  lemma {:induction false} TimestampIsRecent(history: seq<Activity>, name: string, i: nat, now: real)
    requires ClockMonotone(history, now) && i < |history| && history[i].name == name
    requires Restarts(history, i)
    ensures name in ActivityAfter(history) ==> history[i].at <= ActivityAfter(history)[name]
    decreases |history|
  {
    var n := |history| - 1;
    var init := history[..n];
    if i < n {
      assert init[..i] == history[..i];
      TimestampIsRecent(init, name, i, now);
    }
  }

  /** A sweep never selects an eager or pinned backend, one with a call in flight, or one whose
      last completed call, or first connect since its timestamp was cleared, is at most ttl ago. */
  lemma ReapingIsSafe(history: seq<Activity>, m: Manager.State, inFlight: set<string>, ttl: nat, now: real,
                      name: string)
    requires ClockMonotone(history, now) && m.activity == ActivityAfter(history)
    requires name in ToEvict(m.config, m, inFlight, ttl, now)
    ensures ttl > 0 && Connected(m, name) && name !in inFlight
    ensures exists i :: 0 <= i < |m.config| && m.config[i].name == name && IsReapable(m.config[i])
    ensures forall i :: 0 <= i < |history| && history[i].name == name && Restarts(history, i) ==>
              now - history[i].at > ttl as real
  {
    var k := SelectedFrom(m.config, m, inFlight, ttl, now, name);
    forall i | 0 <= i < |history| && history[i].name == name && Restarts(history, i)
      ensures now - history[i].at > ttl as real
    {
      TimestampIsRecent(history, name, i, now);
    }
  }

  lemma {:induction false} SelectedFrom(config: seq<ServerConfig>, m: Manager.State, inFlight: set<string>, ttl: nat,
                                        now: real, name: string)
    returns (i: nat)
    requires name in ToEvict(config, m, inFlight, ttl, now)
    ensures i < |config| && config[i].name == name && Reapable(config[i], m, inFlight, ttl, now)
  {
    var n := |config| - 1;
    if Reapable(config[n], m, inFlight, ttl, now) && config[n].name == name {
      i := n;
    } else {
      i := SelectedFrom(config[..n], m, inFlight, ttl, now, name);
    }
  }

  /** A timestamp is the time of a completed call or first connect of that backend. */
  lemma {:induction false} TimestampIsRestart(history: seq<Activity>, name: string) returns (i: nat)
    requires name in ActivityAfter(history)
    ensures i < |history| && history[i].name == name && Restarts(history, i)
    ensures history[i].at == ActivityAfter(history)[name]
  {
    var n := |history| - 1;
    var init := history[..n];
    if history[n].name == name && (history[n].Mark? || name !in ActivityAfter(init)) {
      i := n;
    } else {
      i := TimestampIsRestart(init, name);
      assert init[..i] == history[..i];
    }
  }

  /** A backend has a timestamp exactly when something was recorded for it and nothing dropped it since. */
  lemma {:induction false} TimestampedIff(history: seq<Activity>, name: string)
    ensures name in ActivityAfter(history) <==> exists i :: Lasting(history, name, i)
  {
    if history != [] {
      var n := |history| - 1;
      var init := history[..n];
      TimestampedIff(init, name);
      if i :| Lasting(init, name, i) {
        assert history[n].name != name || !history[n].Drop? ==> Lasting(history, name, i);
      }
      if i :| Lasting(history, name, i) {
        assert i < n ==> Lasting(init, name, i);
      }
      assert history[n].name == name && !history[n].Drop? ==> Lasting(history, name, n);
    }
  }

  /** Event `i` recorded a time for the backend and no later one dropped it. */
  ghost predicate Lasting(history: seq<Activity>, name: string, i: int) {
    && 0 <= i < |history| && history[i].name == name && !history[i].Drop?
    && forall j :: i < j < |history| && history[j].name == name ==> !history[j].Drop?
  }

  lemma {:induction false} SelectedIf(config: seq<ServerConfig>, m: Manager.State, inFlight: set<string>, ttl: nat,
                                      now: real, i: nat)
    requires i < |config| && ttl > 0 && Reapable(config[i], m, inFlight, ttl, now)
    ensures config[i].name in ToEvict(config, m, inFlight, ttl, now)
  {
    if i < |config| - 1 {
      SelectedIf(config[..|config| - 1], m, inFlight, ttl, now, i);
    }
  }

  /** A sweep selects exactly the lazy backends, neither pinned nor always on, that are connected, have no call in
      flight and a timestamp, and whose every completed call and first connect is more than the TTL ago. */
  lemma ReapedIff(history: seq<Activity>, m: Manager.State, inFlight: set<string>, ttl: nat, now: real, name: string)
    requires ClockMonotone(history, now) && m.activity == ActivityAfter(history)
    ensures name in ToEvict(m.config, m, inFlight, ttl, now) <==>
            && ttl > 0 && name !in inFlight && Connected(m, name) && name in m.activity
            && (exists i :: 0 <= i < |m.config| && LazyNamed(m.config[i], name))
            && forall i :: 0 <= i < |history| && history[i].name == name && Restarts(history, i) ==>
                 now - history[i].at > ttl as real
  {
    if name in ToEvict(m.config, m, inFlight, ttl, now) {
      ReapingIsSafe(history, m, inFlight, ttl, now, name);
      var k := SelectedFrom(m.config, m, inFlight, ttl, now, name);
      assert LazyNamed(m.config[k], name);
    }
    if ttl > 0 && name !in inFlight && Connected(m, name) && name in m.activity {
      var i := TimestampIsRestart(history, name);
      forall k | 0 <= k < |m.config| && LazyNamed(m.config[k], name) && now - history[i].at > ttl as real
        ensures name in ToEvict(m.config, m, inFlight, ttl, now)
      {
        SelectedIf(m.config, m, inFlight, ttl, now, k);
      }
    }
  }

  ghost predicate LazyNamed(s: ServerConfig, name: string) {
    s.name == name && s.spawn == Lazy && !s.alwaysOn
  }

  /** What the manager's operations record: a successful connect seeds, an eviction or removal drops. */
  lemma ManagerRecords(m: Manager.State, name: string, o: Outcome, now: real)
    ensures Connect(m, name, o, now).activity == if o.Failed? then m.activity else Record(m.activity, Seed(name, now))
    ensures Evict(m, name).activity == if Evictable(m, name) then Record(m.activity, Drop(name, now)) else m.activity
    ensures Has(m.conns, name) ==> RemoveServer(m, name).activity == Record(m.activity, Drop(name, now))
  {
  }

  // ---------------------------------------------------------------------
  // Pinned backends
  // ---------------------------------------------------------------------

  /** A backend whose first configuration entry is pinned or always on is never evicted. */
  lemma {:induction false} PinnedFirst(config: seq<ServerConfig>, name: string, i: nat)
    requires i < |config| && config[i].name == name && forall j :: 0 <= j < i ==> config[j].name != name
    ensures ConfigOf(config, name) == Some(config[i])
    ensures PinnedName(config, name) <==> config[i].spawn == Pinned || config[i].alwaysOn
  {
    if i > 0 {
      PinnedFirst(config[1..], name, i - 1);
    }
  }

  /** Evicting spares exactly the pinned and the unknown; any other backend is cached as it was, stops
      serving under the same connection object, and loses its timestamp. */
  lemma EvictSpares(m: Manager.State, name: string, i: nat)
    requires Ok(m) && i < |m.config| && m.config[i].name == name
    requires forall j :: 0 <= j < i ==> m.config[j].name != name
    ensures m.config[i].spawn == Pinned || m.config[i].alwaysOn || !Has(m.conns, name) ==> Evict(m, name) == m
    ensures !(m.config[i].spawn == Pinned || m.config[i].alwaysOn) && Has(m.conns, name) ==>
              var e := Evict(m, name);
              && Has(e.conns, name) && Get(e.conns, name) == Get(m.conns, name).(connected := false)
              && Has(e.evicted, name) && Get(e.evicted, name) == Get(m.conns, name).caps
              && name !in e.activity && e.config == m.config
  {
    PinnedFirst(m.config, name, i);
    if Has(m.conns, name) {
      PutHas(m.conns, name, Get(m.conns, name).(connected := false));
      PutHas(m.evicted, name, Get(m.conns, name).caps);
    }
  }

  /** A connected, an unknown or a pinned backend makes room for nobody: no other backend is touched. */
  lemma EnsureTouchesNobody(m: Manager.State, cap: nat, name: string, o: Outcome, now: real, n: string)
    requires Ok(m) && n != name
    requires Connected(m, name) || ConfigOf(m.config, name) == None || PinnedName(m.config, name)
    ensures var e := EnsureConnected(m, cap, name, o, now);
            && (Has(e.conns, n) <==> Has(m.conns, n)) && (Has(m.conns, n) ==> Get(e.conns, n) == Get(m.conns, n))
    ensures Connected(m, name) || ConfigOf(m.config, name) == None ==> EnsureConnected(m, cap, name, o, now) == m
  {
    var c := Conn(m.nextId, false, NO_CAPS);
    PutMap(m.conns, name, c);
    OtherConn(m.conns, name, c, n);
    PutHas(m.conns, name, c);
    if o.Up? {
      OtherConn(Put(m.conns, name, c), name, c.(connected := true, caps := o.caps), n);
    }
  }
}
