/**
 The tool-result cache: entries with a time to live, kept in the order of their
 last use and evicted from the least recently used end.  The digest of the
 arguments is a parameter, and so is the clock.
 */
module Cache {
  import opened Prelude
  import opened Namespace

  datatype Entry = Entry(result: string, created: real, ttl: int) {
    predicate Expired(now: real) {
      now - created > ttl as real
    }
  }

  datatype Settings = Settings(defaultTtl: int, max: int, noCache: set<string>)

  /** `order` lists the cached keys, most recently used last. */
  datatype State = State(entries: map<string, Entry>, order: seq<string>, hits: nat, misses: nat)

  const EMPTY := State(map[], [], 0, 0)

  /** One tool call, as the cache sees it. */
  datatype Call = Call(server: string, tool: string, digest: string)

  function CacheKey(c: Call): string {
    NamespaceName(c.server, NamespaceName(c.tool, c.digest))
  }

  /** What follows the last delimiter. */
  function BaseName(tool: string): string
    decreases |tool|
  {
    var i := FindDelimiter(tool);
    if i == |tool| then tool else BaseName(tool[i + 2..])
  }

  predicate Cacheable(g: Settings, tool: string) {
    BaseName(tool) !in g.noCache
  }

  // ---------------------------------------------------------------------
  // Operations
  // ---------------------------------------------------------------------

  function Without(order: seq<string>, keys: set<string>): seq<string> {
    if order == [] then []
    else
      var n := |order| - 1;
      if order[n] in keys then Without(order[..n], keys) else Without(order[..n], keys) + [order[n]]
  }

  function Drop(s: State, keys: set<string>): State {
    s.(entries := s.entries - keys, order := Without(s.order, keys))
  }

  function Touch(s: State, key: string): State {
    s.(order := Without(s.order, {key}) + [key])
  }

  predicate Hit(g: Settings, s: State, c: Call, now: real) {
    Cacheable(g, c.tool) && CacheKey(c) in s.entries && !s.entries[CacheKey(c)].Expired(now)
  }

  function Get(g: Settings, s: State, c: Call, now: real): State {
    var key := CacheKey(c);
    if Hit(g, s, c, now) then Touch(s.(hits := s.hits + 1), key)
    else
      var s1 := if Cacheable(g, c.tool) && key in s.entries then Drop(s, {key}) else s;
      s1.(misses := s.misses + 1)
  }

  /** One eviction when the cache is full. */
  function MakeRoom(g: Settings, s: State): State {
    if |s.entries| < g.max || s.order == [] then s else Drop(s, {s.order[0]})
  }

  function Put(g: Settings, s: State, c: Call, result: string, ttl: Option<int>, now: real): State {
    if !Cacheable(g, c.tool) then s
    else
      Insert(MakeRoom(g, s), CacheKey(c), Entry(result, now, if ttl.Some? then ttl.value else g.defaultTtl))
  }

  function Insert(s: State, key: string, e: Entry): State {
    Touch(s.(entries := s.entries[key := e]), key)
  }

  /** An empty tool name counts as none. */
  function InvalidPrefix(server: string, tool: Option<string>): string {
    if tool.Some? && tool.value != "" then NamespaceName(server, NamespaceName(tool.value, ""))
    else NamespaceName(server, "")
  }

  function Matching(s: State, prefix: string): set<string> {
    set k | k in s.entries && prefix <= k
  }

  function Stale(s: State, now: real): set<string> {
    set k | k in s.entries && s.entries[k].Expired(now)
  }

  // ---------------------------------------------------------------------
  // The engine
  // ---------------------------------------------------------------------

  ghost predicate NoDuplicates(order: seq<string>) {
    forall i, j :: 0 <= i < j < |order| ==> order[i] != order[j]
  }

  /** The order list holds exactly the cached keys. */
  ghost predicate Consistent(s: State) {
    NoDuplicates(s.order) && forall k :: k in s.entries <==> k in s.order
  }

  ghost predicate Inv(g: Settings, s: State) {
    Consistent(s) && |s.entries| <= g.max
  }

  class CacheEngine {
    const settings: Settings
    var entries: map<string, Entry>
    var order: seq<string>
    var hits: nat
    var misses: nat

    function View(): State
      reads this
    {
      State(entries, order, hits, misses)
    }

    ghost predicate Valid()
      reads this
    {
      settings.max >= 1 && Inv(settings, View())
    }

    constructor (g: Settings)
      ensures settings == g && View() == EMPTY
      ensures g.max >= 1 ==> Valid()
    {
      settings := g;
      entries, order, hits, misses := map[], [], 0, 0;
    }

    method Remove(key: string)
      modifies this
      ensures View() == Drop(old(View()), {key})
    {
      entries := entries - {key};
      order := PopKey(order, key);
    }

    /** `OrderedDict.pop(key, None)`. */
    static method PopKey(order: seq<string>, key: string) returns (r: seq<string>)
      ensures r == Without(order, {key})
    {
      r := [];
      for i := 0 to |order|
        invariant r == Without(order[..i], {key})
      {
        assert order[..i + 1][..i] == order[..i];
        if order[i] != key {
          r := r + [order[i]];
        }
      }
      assert order[..|order|] == order;
    }

    method TouchAccess(key: string)
      modifies this
      ensures View() == Touch(old(View()), key)
    {
      order := PopKey(order, key);
      order := order + [key];
    }

    method EvictLru()
      modifies this
      ensures View() == if old(order) == [] then old(View()) else Drop(old(View()), {old(order)[0]})
    {
      if order != [] {
        Remove(order[0]);
      }
    }

    method Lookup(c: Call, now: real) returns (r: Option<string>)
      requires Valid()
      modifies this
      ensures Valid() && View() == Get(settings, old(View()), c, now)
      ensures r == if Hit(settings, old(View()), c, now) then Some(old(entries)[CacheKey(c)].result) else None
    {
      GetKeepsInv(settings, View(), c, now);
      var key := CacheKey(c);
      if !Cacheable(settings, c.tool) || key !in entries {
        misses := misses + 1;
        return None;
      }
      var e := entries[key];
      if e.Expired(now) {
        Remove(key);
        misses := misses + 1;
        return None;
      }
      hits := hits + 1;
      TouchAccess(key);
      return Some(e.result);
    }

    method Store(c: Call, result: string, ttl: Option<int>, now: real)
      requires Valid()
      modifies this
      ensures Valid() && View() == Put(settings, old(View()), c, result, ttl, now)
    {
      PutKeepsInv(settings, View(), c, result, ttl, now);
      if !Cacheable(settings, c.tool) {
        return;
      }
      ghost var room := MakeRoom(settings, View());
      while |entries| >= settings.max
        invariant View() == old(View()) || (View() == room && |entries| < settings.max)
        decreases |entries|
      {
        RoomMade(settings, View());
        EvictLru();
      }
      var lasting := if ttl.Some? then ttl.value else settings.defaultTtl;
      entries := entries[CacheKey(c) := Entry(result, now, lasting)];
      TouchAccess(CacheKey(c));
    }

    method RemoveEach(keys: set<string>)
      modifies this
      ensures View() == Drop(old(View()), keys)
    {
      var todo := keys;
      DropNothing(View());
      assert keys - keys == {};
      while todo != {}
        invariant todo <= keys && View() == Drop(old(View()), keys - todo)
        decreases todo
      {
        var k :| k in todo;
        DropTwice(old(View()), keys - todo, {k});
        Remove(k);
        assert keys - (todo - {k}) == (keys - todo) + {k};
        todo := todo - {k};
      }
      assert keys - {} == keys;
    }

    method Invalidate(server: string, tool: Option<string>) returns (count: nat)
      requires Valid()
      modifies this
      ensures Valid()
      ensures var gone := Matching(old(View()), InvalidPrefix(server, tool));
              View() == Drop(old(View()), gone) && count == |gone|
    {
      var prefix := InvalidPrefix(server, tool);
      var keys := set k | k in entries && prefix <= k;
      DropKeepsInv(settings, View(), keys);
      RemoveEach(keys);
      count := |keys|;
    }

    method Clear()
      requires Valid()
      modifies this
      ensures Valid() && View() == State(map[], [], old(hits), old(misses))
    {
      entries, order := map[], [];
    }

    method CleanupExpired(now: real)
      requires Valid()
      modifies this
      ensures Valid() && View() == Drop(old(View()), Stale(old(View()), now))
    {
      var keys := set k | k in entries && entries[k].Expired(now);
      DropKeepsInv(settings, View(), keys);
      RemoveEach(keys);
    }
  }

  // ---------------------------------------------------------------------
  // Order and size
  // ---------------------------------------------------------------------

  lemma {:induction false} WithoutFacts(order: seq<string>, keys: set<string>)
    ensures forall k :: k in Without(order, keys) <==> k in order && k !in keys
    ensures NoDuplicates(order) ==> NoDuplicates(Without(order, keys))
  {
    if order != [] {
      var n := |order| - 1;
      assert order == order[..n] + [order[n]];
      WithoutFacts(order[..n], keys);
    }
  }

  lemma {:induction false} WithoutTwice(order: seq<string>, a: set<string>, b: set<string>)
    ensures Without(Without(order, a), b) == Without(order, a + b)
  {
    if order != [] {
      var n := |order| - 1;
      WithoutTwice(order[..n], a, b);
      var w := Without(order[..n], a);
      assert (w + [order[n]])[..|w|] == w;
    }
  }

  lemma {:induction false} WithoutNothing(order: seq<string>)
    ensures Without(order, {}) == order
  {
    if order != [] {
      WithoutNothing(order[..|order| - 1]);
    }
  }

  lemma DropTwice(s: State, a: set<string>, b: set<string>)
    ensures Drop(Drop(s, a), b) == Drop(s, a + b)
  {
    WithoutTwice(s.order, a, b);
    assert s.entries - a - b == s.entries - (a + b);
  }

  lemma DropNothing(s: State)
    ensures Drop(s, {}) == s
  {
    WithoutNothing(s.order);
    assert s.entries - {} == s.entries;
  }

  lemma FewerEntries(m: map<string, Entry>, keys: set<string>)
    ensures |m - keys| <= |m|
    ensures forall k :: k in m && k in keys ==> |m - keys| < |m|
  {
    var rest, out := (m - keys).Keys, m.Keys * keys;
    assert m.Keys == rest + out && rest !! out;
    assert |m.Keys| == |rest| + |out|;
    forall k | k in m && k in keys ensures |m - keys| < |m| {
      assert k in out;
    }
  }

  lemma DropKeepsInv(g: Settings, s: State, keys: set<string>)
    requires Inv(g, s)
    ensures Inv(g, Drop(s, keys))
  {
    WithoutFacts(s.order, keys);
    FewerEntries(s.entries, keys);
  }

  lemma TouchFacts(s: State, key: string)
    requires NoDuplicates(s.order) && key in s.entries
    requires forall k :: k in s.entries <==> k in s.order || k == key
    ensures Consistent(Touch(s, key))
  {
    WithoutFacts(s.order, {key});
  }

  lemma GetKeepsInv(g: Settings, s: State, c: Call, now: real)
    requires Inv(g, s)
    ensures Inv(g, Get(g, s, c, now))
  {
    var key := CacheKey(c);
    DropKeepsInv(g, s, {key});
    if key in s.entries {
      TouchFacts(s, key);
    }
  }

  lemma Room(g: Settings, s: State)
    requires Inv(g, s) && g.max >= 1
    ensures Inv(g, MakeRoom(g, s)) && |MakeRoom(g, s).entries| < g.max
    ensures |s.entries| >= g.max ==> s.order != []
  {
    if |s.entries| >= g.max {
      var k :| k in s.entries;
      assert k in s.order;
      assert s.order[0] in s.order;
      DropKeepsInv(g, s, {s.order[0]});
      FewerEntries(s.entries, {s.order[0]});
    }
  }

  /** One turn of the eviction loop on a full cache is enough. */
  lemma RoomMade(g: Settings, s: State)
    requires Inv(g, s) && g.max >= 1 && |s.entries| >= g.max
    ensures s.order != [] && MakeRoom(g, s) == Drop(s, {s.order[0]}) && |MakeRoom(g, s).entries| < g.max
  {
    Room(g, s);
  }

  lemma PutKeepsInv(g: Settings, s: State, c: Call, result: string, ttl: Option<int>, now: real)
    requires Inv(g, s) && g.max >= 1
    ensures Inv(g, Put(g, s, c, result, ttl, now))
  {
    if Cacheable(g, c.tool) {
      Room(g, s);
      InsertKeepsInv(g, MakeRoom(g, s), CacheKey(c), Entry(result, now, if ttl.Some? then ttl.value else g.defaultTtl));
    }
  }

  lemma InsertKeepsInv(g: Settings, s: State, key: string, e: Entry)
    requires Consistent(s) && |s.entries| < g.max
    ensures Inv(g, Insert(s, key, e))
  {
    var s1 := s.(entries := s.entries[key := e]);
    assert s1.entries.Keys == s.entries.Keys + {key};
    TouchFacts(s1, key);
  }

  // ---------------------------------------------------------------------
  // Runs against a map that forgets
  // ---------------------------------------------------------------------

  datatype Op =
    | GetOp(call: Call, now: real)
    | PutOp(call: Call, result: string, ttl: Option<int>, now: real)
    | InvalidateOp(server: string, tool: Option<string>)
    | CleanupOp(now: real)
    | ClearOp

  function Apply(g: Settings, s: State, op: Op): State {
    match op
    case GetOp(c, now) => Get(g, s, c, now)
    case PutOp(c, result, ttl, now) => Put(g, s, c, result, ttl, now)
    case InvalidateOp(server, tool) => Drop(s, Matching(s, InvalidPrefix(server, tool)))
    case CleanupOp(now) => Drop(s, Stale(s, now))
    case ClearOp => State(map[], [], s.hits, s.misses)
  }

  function Run(g: Settings, s: State, ops: seq<Op>): State {
    if ops == [] then s else Apply(g, Run(g, s, ops[..|ops| - 1]), ops[|ops| - 1])
  }

  /** The unbounded reference: the latest put of a key that no invalidation has covered since. */
  ghost function Latest(g: Settings, ops: seq<Op>, key: string): Option<Entry> {
    if ops == [] then None
    else
      var before := Latest(g, ops[..|ops| - 1], key);
      match ops[|ops| - 1]
      case GetOp(_, _) => before
      case CleanupOp(_) => before
      case PutOp(c, result, ttl, now) =>
        if CacheKey(c) == key && Cacheable(g, c.tool)
        then Some(Entry(result, now, if ttl.Some? then ttl.value else g.defaultTtl)) else before
      case InvalidateOp(server, tool) => if InvalidPrefix(server, tool) <= key then None else before
      case ClearOp => None
  }

  /** The keys put or hit, in order. */
  ghost function TouchLog(g: Settings, s: State, ops: seq<Op>): seq<string> {
    if ops == [] then []
    else
      var n := |ops| - 1;
      var log := TouchLog(g, s, ops[..n]);
      if Touches(g, Run(g, s, ops[..n]), ops[n]) then log + [CacheKey(ops[n].call)] else log
  }

  predicate Touches(g: Settings, s: State, op: Op) {
    match op
    case GetOp(c, now) => Hit(g, s, c, now)
    case PutOp(c, _, _, _) => Cacheable(g, c.tool)
    case _ => false
  }

  lemma ApplyKeepsInv(g: Settings, s: State, op: Op)
    requires Inv(g, s) && g.max >= 1
    ensures Inv(g, Apply(g, s, op))
  {
    match op
    case GetOp(c, now) => GetKeepsInv(g, s, c, now);
    case PutOp(c, result, ttl, now) => PutKeepsInv(g, s, c, result, ttl, now);
    case InvalidateOp(server, tool) => DropKeepsInv(g, s, Matching(s, InvalidPrefix(server, tool)));
    case CleanupOp(now) => DropKeepsInv(g, s, Stale(s, now));
    case ClearOp =>
  }

  lemma {:induction false} RunKeepsInv(g: Settings, s: State, ops: seq<Op>)
    requires Inv(g, s) && g.max >= 1
    ensures Inv(g, Run(g, s, ops))
  {
    if ops != [] {
      RunKeepsInv(g, s, ops[..|ops| - 1]);
      ApplyKeepsInv(g, Run(g, s, ops[..|ops| - 1]), ops[|ops| - 1]);
    }
  }

  ghost predicate Agrees(g: Settings, s: State, ops: seq<Op>, key: string) {
    key in s.entries ==> Latest(g, ops, key) == Some(s.entries[key])
  }

  /** Whatever is cached is what the reference holds. */
  lemma {:induction false} CachedIsLatest(g: Settings, ops: seq<Op>, key: string)
    ensures Agrees(g, Run(g, EMPTY, ops), ops, key)
  {
    if ops != [] {
      CachedIsLatest(g, ops[..|ops| - 1], key);
    }
  }

  /** Over any run a hit returns the latest put for that very key, not invalidated or cleared since, within its TTL. */
  lemma HitIsLatestPut(g: Settings, ops: seq<Op>, c: Call, now: real)
    requires Hit(g, Run(g, EMPTY, ops), c, now)
    ensures Latest(g, ops, CacheKey(c)) == Some(Run(g, EMPTY, ops).entries[CacheKey(c)])
    ensures now - Latest(g, ops, CacheKey(c)).value.created <= Latest(g, ops, CacheKey(c)).value.ttl as real
  {
    CachedIsLatest(g, ops, CacheKey(c));
  }

  // ---------------------------------------------------------------------
  // The order is the order of last use
  // ---------------------------------------------------------------------

  /** Position of the last occurrence, or -1. */
  ghost function LastUse(log: seq<string>, key: string): int {
    if log == [] then -1
    else if log[|log| - 1] == key then |log| - 1
    else LastUse(log[..|log| - 1], key)
  }

  lemma {:induction false} LastUseBound(log: seq<string>, key: string)
    ensures -1 <= LastUse(log, key) < |log|
  {
    if log != [] {
      LastUseBound(log[..|log| - 1], key);
    }
  }

  ghost predicate ByLastUse(order: seq<string>, log: seq<string>) {
    forall i, j :: 0 <= i < j < |order| ==> LastUse(log, order[i]) < LastUse(log, order[j])
  }

  lemma {:induction false} WithoutSorted(order: seq<string>, keys: set<string>, log: seq<string>)
    requires ByLastUse(order, log)
    ensures ByLastUse(Without(order, keys), log)
  {
    if order != [] {
      var n := |order| - 1;
      WithoutSorted(order[..n], keys, log);
      WithoutFacts(order[..n], keys);
      forall k | k in order[..n] && order[n] !in keys ensures LastUse(log, k) < LastUse(log, order[n]) {
        var i :| 0 <= i < n && order[i] == k;
      }
    }
  }

  lemma TouchSorted(order: seq<string>, key: string, log: seq<string>)
    requires ByLastUse(order, log)
    ensures ByLastUse(Without(order, {key}) + [key], log + [key])
  {
    WithoutSorted(order, {key}, log);
    WithoutFacts(order, {key});
    var w := Without(order, {key});
    assert (log + [key])[..|log|] == log;
    forall i | 0 <= i < |w| ensures LastUse(log + [key], w[i]) == LastUse(log, w[i]) < |log| {
      assert w[i] in w;
      LastUseBound(log, w[i]);
    }
  }

  lemma {:induction false} OrderIsLastUse(g: Settings, s: State, ops: seq<Op>)
    requires s.order == []
    ensures ByLastUse(Run(g, s, ops).order, TouchLog(g, s, ops))
  {
    if ops != [] {
      var n := |ops| - 1;
      var r, log := Run(g, s, ops[..n]), TouchLog(g, s, ops[..n]);
      OrderIsLastUse(g, s, ops[..n]);
      match ops[n]
      case GetOp(c, now) =>
        TouchSorted(r.order, CacheKey(c), log);
        WithoutSorted(r.order, {CacheKey(c)}, log);
      case PutOp(c, _, _, _) =>
        var room := MakeRoom(g, r);
        if r.order != [] {
          WithoutSorted(r.order, {r.order[0]}, log);
        }
        TouchSorted(room.order, CacheKey(c), log);
      case InvalidateOp(server, tool) => WithoutSorted(r.order, Matching(r, InvalidPrefix(server, tool)), log);
      case CleanupOp(now) => WithoutSorted(r.order, Stale(r, now), log);
      case ClearOp =>
    }
  }

  /** Capacity never evicts anything but the least recently used key, and only when the cache is full. */
  lemma VictimIsLeastRecent(g: Settings, ops: seq<Op>, k: string)
    requires g.max >= 1
    ensures var s := Run(g, EMPTY, ops);
            k in s.entries && k !in MakeRoom(g, s).entries ==>
              |s.entries| == g.max &&
              forall x :: x in s.entries && x != k ==>
                LastUse(TouchLog(g, EMPTY, ops), k) < LastUse(TouchLog(g, EMPTY, ops), x)
  {
    var s := Run(g, EMPTY, ops);
    RunKeepsInv(g, EMPTY, ops);
    OrderIsLastUse(g, EMPTY, ops);
  }

  // ---------------------------------------------------------------------
  // How long an entry survives
  // ---------------------------------------------------------------------

  ghost function IndexOf(order: seq<string>, k: string): nat
    requires k in order
    ensures IndexOf(order, k) < |order| && order[IndexOf(order, k)] == k
  {
    var i :| 0 <= i < |order| && order[i] == k;
    i
  }

  /** How many keys were used after this one. */
  ghost function Behind(s: State, k: string): nat
    requires k in s.order
  {
    |s.order| - 1 - IndexOf(s.order, k)
  }

  /** The operation removes `k` deliberately: it invalidates, clears or finds it expired. */
  ghost predicate Discards(s: State, op: Op, k: string) {
    match op
    case GetOp(c, now) => CacheKey(c) == k && k in s.entries && s.entries[k].Expired(now)
    case PutOp(_, _, _, _) => false
    case InvalidateOp(server, tool) => InvalidPrefix(server, tool) <= k
    case CleanupOp(now) => k in s.entries && s.entries[k].Expired(now)
    case ClearOp => true
  }

  /** Taking keys out never puts more behind `k`. */
  lemma {:induction false} WithoutBehind(order: seq<string>, keys: set<string>, k: string)
    requires NoDuplicates(order) && k in order && k !in keys
    ensures NoDuplicates(Without(order, keys)) && k in Without(order, keys)
    ensures |Without(order, keys)| - IndexOf(Without(order, keys), k) <= |order| - IndexOf(order, k)
  {
    WithoutFacts(order, keys);
    var n := |order| - 1;
    var init := order[..n];
    if order[n] != k {
      assert k in init by {
        assert init[IndexOf(order, k)] == k;
      }
      WithoutBehind(init, keys, k);
      assert init[IndexOf(init, k)] == order[IndexOf(init, k)];
      var w := Without(init, keys);
      WithoutFacts(init, keys);
      if order[n] !in keys {
        assert Without(order, keys)[IndexOf(w, k)] == k;
      }
    } else {
      var w := Without(order, keys);
      assert w[|w| - 1] == k;
    }
  }

  lemma TouchBehind(order: seq<string>, key: string, k: string)
    requires NoDuplicates(order) && k in order
    ensures var t := Without(order, {key}) + [key];
            NoDuplicates(t) && k in t && |t| - IndexOf(t, k) <= |order| - IndexOf(order, k) + 1
  {
    var w := Without(order, {key});
    var t := w + [key];
    WithoutFacts(order, {key});
    assert NoDuplicates(t);
    if k == key {
      assert t[|t| - 1] == k;
    } else {
      WithoutBehind(order, {key}, k);
      assert t[IndexOf(w, k)] == k;
    }
  }

  /** One operation that does not discard `k` keeps it unless it is last in line, and puts at most one key behind it. */
  lemma OneStepSurvives(g: Settings, s: State, op: Op, k: string)
    requires Inv(g, s) && g.max >= 1 && k in s.order && !Discards(s, op, k)
    requires Touches(g, s, op) ==> Behind(s, k) + 1 <= g.max - 1
    ensures var s' := Apply(g, s, op);
            Inv(g, s') && k in s'.order && Behind(s', k) <= Behind(s, k) + if Touches(g, s, op) then 1 else 0
  {
    ApplyKeepsInv(g, s, op);
    match op
    case GetOp(c, now) =>
      if Hit(g, s, c, now) {
        TouchBehind(s.order, CacheKey(c), k);
      } else if CacheKey(c) != k {
        WithoutBehind(s.order, {CacheKey(c)}, k);
      }
    case PutOp(c, _, _, _) =>
      if Cacheable(g, c.tool) {
        RoomSpares(g, s, k);
        TouchBehind(MakeRoom(g, s).order, CacheKey(c), k);
      }
    case InvalidateOp(server, tool) => WithoutBehind(s.order, Matching(s, InvalidPrefix(server, tool)), k);
    case CleanupOp(now) => WithoutBehind(s.order, Stale(s, now), k);
    case ClearOp =>
  }

  lemma {:induction false} OrderIsKeys(order: seq<string>, keys: set<string>)
    requires NoDuplicates(order) && forall k :: k in keys <==> k in order
    ensures |order| == |keys|
  {
    if order == [] {
      assert keys == {};
    } else {
      var n := |order| - 1;
      assert order == order[..n] + [order[n]];
      OrderIsKeys(order[..n], keys - {order[n]});
    }
  }

  lemma RoomSpares(g: Settings, s: State, k: string)
    requires Inv(g, s) && g.max >= 1 && k in s.order && Behind(s, k) + 1 <= g.max - 1
    ensures var r := MakeRoom(g, s);
            NoDuplicates(r.order) && k in r.order && |r.order| - IndexOf(r.order, k) <= |s.order| - IndexOf(s.order, k)
  {
    if |s.entries| >= g.max && s.order != [] {
      OrderIsKeys(s.order, s.entries.Keys);
      assert IndexOf(s.order, k) > 0;
      assert s.order[0] != k;
      WithoutBehind(s.order, {s.order[0]}, k);
    }
  }

  ghost predicate NeverDiscarded(g: Settings, s: State, ops: seq<Op>, k: string) {
    forall i :: 0 <= i < |ops| ==> !Discards(Run(g, s, ops[..i]), ops[i], k)
  }

  /** Least-recently-used means: a key survives as long as fewer than `max` uses, its own included,
      have followed since it was last used, and nobody invalidates it or finds it expired. */
  lemma {:induction false} RecentKeysSurvive(g: Settings, s: State, ops: seq<Op>, k: string)
    requires Inv(g, s) && g.max >= 1 && k in s.order && NeverDiscarded(g, s, ops, k)
    requires Behind(s, k) + |TouchLog(g, s, ops)| <= g.max - 1
    ensures Inv(g, Run(g, s, ops)) && k in Run(g, s, ops).order && k in Run(g, s, ops).entries
    ensures Behind(Run(g, s, ops), k) <= Behind(s, k) + |TouchLog(g, s, ops)|
  {
    if ops != [] {
      var n := |ops| - 1;
      var init := ops[..n];
      assert NeverDiscarded(g, s, init, k) by {
        forall i | 0 <= i < n ensures !Discards(Run(g, s, init[..i]), init[i], k) {
          assert init[..i] == ops[..i];
        }
      }
      RecentKeysSurvive(g, s, init, k);
      OneStepSurvives(g, Run(g, s, init), ops[n], k);
    }
  }

  /** Storing under a key that is already cached still evicts from a full cache: it then holds one entry less. */
  lemma PutOnCachedKeyShrinks(g: Settings, s: State, c: Call, result: string, ttl: Option<int>, now: real)
    requires Inv(g, s) && |s.entries| == g.max >= 1 && Cacheable(g, c.tool) && CacheKey(c) in s.entries
    ensures s.order != []
    ensures |Put(g, s, c, result, ttl, now).entries| == if s.order[0] == CacheKey(c) then g.max else g.max - 1
  {
    var key, first := CacheKey(c), s.order[0];
    RoomMade(g, s);
    var room := MakeRoom(g, s).entries;
    assert first in s.order;
    assert room.Keys == s.entries.Keys - {first};
    assert Put(g, s, c, result, ttl, now).entries.Keys == room.Keys + {key};
  }

  ghost predicate OthersKept(before: map<string, Entry>, after: map<string, Entry>, key: string) {
    forall k :: k in before && k != key ==> k in after && after[k] == before[k]
  }

  /** A put under a cached key keeps every other entry exactly when the cache was not
      full or the key itself was the least recently used one. */
  lemma PutKeepsOthersIff(g: Settings, s: State, c: Call, result: string, ttl: Option<int>, now: real)
    requires Inv(g, s) && g.max >= 1 && Cacheable(g, c.tool) && CacheKey(c) in s.entries
    ensures s.order != []
    ensures OthersKept(s.entries, Put(g, s, c, result, ttl, now).entries, CacheKey(c)) <==>
            |s.entries| < g.max || s.order[0] == CacheKey(c)
  {
    assert CacheKey(c) in s.order;
    var first, after := s.order[0], Put(g, s, c, result, ttl, now).entries;
    assert first in s.order;
    Room(g, s);
    assert |s.entries| >= g.max && first != CacheKey(c) ==> first in s.entries && first !in after;
  }

  // ---------------------------------------------------------------------
  // Keys
  // ---------------------------------------------------------------------

  /** Calls to servers with clean names have different keys unless they are the same call. */
  lemma KeysIdentifyCalls(a: Call, b: Call)
    requires Clean(a.server) && Clean(b.server) && |a.digest| == |b.digest| && CacheKey(a) == CacheKey(b)
    ensures a == b
  {
    NamespaceInjective(a.server, NamespaceName(a.tool, a.digest), b.server, NamespaceName(b.tool, b.digest));
    var x, y := NamespaceName(a.tool, a.digest), NamespaceName(b.tool, b.digest);
    assert |a.tool| == |b.tool|;
    assert x[..|a.tool|] == a.tool && y[..|b.tool|] == b.tool;
    NamespaceKeepsName(a.tool, a.digest, b.digest);
  }

  lemma PrefixMeansServer(server: string, rest: string, key: string)
    ensures NamespaceName(server, rest) <= key <==>
            && |key| >= |server| + 2 + |rest|
            && key == NamespaceName(server, key[|server| + 2..]) && rest <= key[|server| + 2..]
  {
    var p := NamespaceName(server, rest);
    if p <= key {
      assert key[..|server| + 2] == p[..|server| + 2] == NamespaceName(server, "");
      assert key == key[..|server| + 2] + key[|server| + 2..];
      assert p[|server| + 2..] == rest;
      assert key[..|p|] == p;
      assert key[|server| + 2..][..|rest|] == rest;
    }
  }

  /** Invalidating a server with a clean name hits exactly that server's entries among clean names. */
  lemma InvalidatesExactlyServer(server: string, c: Call)
    requires Clean(server) && Clean(c.server)
    ensures InvalidPrefix(server, None) <= CacheKey(c) <==> c.server == server
    ensures InvalidPrefix(server, Some("")) <= CacheKey(c) <==> c.server == server
  {
    var key := CacheKey(c);
    PrefixMeansServer(server, "", key);
    if InvalidPrefix(server, None) <= key {
      NamespaceInjective(server, key[|server| + 2..], c.server, NamespaceName(c.tool, c.digest));
    }
  }

  /** With a tool named, exactly that tool's entries, again among clean names. */
  lemma InvalidatesExactlyTool(server: string, tool: string, c: Call)
    requires Clean(server) && Clean(c.server) && Clean(tool) && Clean(c.tool) && tool != ""
    ensures InvalidPrefix(server, Some(tool)) <= CacheKey(c) <==> c.server == server && c.tool == tool
  {
    var key, inner := CacheKey(c), NamespaceName(c.tool, c.digest);
    PrefixMeansServer(server, NamespaceName(tool, ""), key);
    PrefixMeansServer(tool, "", inner);
    if InvalidPrefix(server, Some(tool)) <= key {
      NamespaceInjective(server, key[|server| + 2..], c.server, inner);
      NamespaceInjective(tool, inner[|tool| + 2..], c.tool, c.digest);
    }
    assert key[|c.server| + 2..] == inner && inner[|c.tool| + 2..] == c.digest;
  }

  // ---------------------------------------------------------------------
  // Tools that are never cached, and expiry in numbers
  // ---------------------------------------------------------------------

  /** The tool is `base` itself or `base` under a server id without a delimiter. */
  ghost predicate IsTool(tool: string, id: string, base: string) {
    && (forall i :: 0 <= i < |base| ==> !DelimiterAt(base, i))
    && (tool == base || (Clean(id) && tool == id + "__" + base))
  }

  lemma BaseOfTool(tool: string, id: string, base: string)
    requires IsTool(tool, id, base)
    ensures BaseName(tool) == base
  {
    assert FindDelimiter(base) == |base|;
    if tool != base {
      ParseRecovers(id, base);
      var i := FindDelimiter(tool);
      assert DelimiterAt(tool, |id|);
      assert tool[i + 2..] == base;
    }
  }

  /** A tool on the no-cache list, plain or namespaced, is neither stored nor found; any other
      is stored under its key with its own TTL or the default one. */
  lemma StoredUnlessExcluded(g: Settings, s: State, c: Call, id: string, base: string, result: string,
                             ttl: Option<int>, now: real)
    requires Inv(g, s) && g.max >= 1 && IsTool(c.tool, id, base)
    ensures base in g.noCache ==> Put(g, s, c, result, ttl, now) == s && !Hit(g, s, c, now)
    ensures base !in g.noCache ==>
              var e := Put(g, s, c, result, ttl, now).entries;
              && CacheKey(c) in e && e[CacheKey(c)].result == result && e[CacheKey(c)].created == now
              && e[CacheKey(c)].ttl == match ttl case Some(t) => t case None => g.defaultTtl
  {
    BaseOfTool(c.tool, id, base);
  }

  /** A lookup hits exactly a cached entry whose age is at most its TTL, moves that key to the end and leaves the
      entries alone; an older one is removed. */
  lemma LookupMeans(g: Settings, s: State, c: Call, id: string, base: string, now: real)
    requires Inv(g, s) && IsTool(c.tool, id, base) && base !in g.noCache
    ensures var key, after := CacheKey(c), Get(g, s, c, now);
            && (Hit(g, s, c, now) <==> key in s.entries && now - s.entries[key].created <= s.entries[key].ttl as real)
            && (Hit(g, s, c, now) ==> after.entries == s.entries && after.order[|after.order| - 1] == key)
            && (key in s.entries && !Hit(g, s, c, now) ==> key !in after.entries && after.entries == s.entries - {key})
            && (key !in s.entries ==> after.entries == s.entries && after.order == s.order)
  {
    BaseOfTool(c.tool, id, base);
  }

  /** A cleanup removes exactly the entries older than their TTL. */
  lemma CleanupMeans(s: State, now: real, key: string)
    ensures var after := Drop(s, Stale(s, now)).entries;
            && (key in after <==> key in s.entries && now - s.entries[key].created <= s.entries[key].ttl as real)
            && (key in after ==> after[key] == s.entries[key])
  {
  }

  ghost function Lookups(ops: seq<Op>): nat {
    if ops == [] then 0 else Lookups(ops[..|ops| - 1]) + if ops[|ops| - 1].GetOp? then 1 else 0
  }

  /** Every lookup is counted once, as a hit or as a miss. */
  lemma {:induction false} LookupsCounted(g: Settings, s: State, ops: seq<Op>)
    ensures Run(g, s, ops).hits + Run(g, s, ops).misses == s.hits + s.misses + Lookups(ops)
  {
    if ops != [] {
      LookupsCounted(g, s, ops[..|ops| - 1]);
    }
  }
}
