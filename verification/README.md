# A verified model of the MCP hub's stateful protocols

One hub process keeps connections to many MCP servers and lets any number of
clients call them. What can go wrong is mostly a matter of order: a call that
starts while its connection is being drained, an eviction that overtakes a
reconnect, a reload that meets a dead backend, a client that asks for events the
buffer has already dropped. This project writes those components down in Dafny
and proves what they keep, for every input and every order of steps. A coroutine
advances in atomic steps from one `await` to the next, clocks are arguments, and
whatever lies across the network may answer anything.

`dafny verify dfyconfig.toml` checks the whole project.

| file | component |
|---|---|
| `EventStore.dfy` | resumable event store: ring buffers, expiry, stream cap, two-pass replay |
| `DottedKeys.dfy`, `ArgumentRepair.dfy`, `ArgumentHeap.dfy` | rebuilding flat `arguments.` keys, on trees and on mutable dicts |
| `Namespace.dfy`, `Registry.dfy` | server ids, namespaced names, the capability index |
| `OrderedDict.dfy`, `Manager.dfy`, `Eviction.dfy`, `Reload.dfy`, `Federation.dfy` | connection manager: eviction, live cap, idle reaper, hot reload; `Federation` is the object updated in place |
| `Lifecycle.dfy`, `Drain.dfy`, `ConnectGate.dfy` | connection states, draining, single-flight connecting |
| `Classifier.dfy`, `Supervisor.dfy` | failure classification, circuit breaker, supervised loop |
| `Cache.dfy` | result cache with TTL and least-recently-used eviction |
| `Probe.dfy`, `Resume.dfy` | one-time protocol fallback, token-gated retry |

Where the source changes state in place, a class with the same fields has one
method per operation or atomic section; its `ensures` ties the new state to a
function of the old one, and the theorems below are about those functions over
whole runs.

## Where the code and its documentation part

The model follows the code. Each disagreement is a proved statement with the
exact condition under which the documented behaviour holds.

- Replay is documented to return nothing once the owning stream was evicted; it
  can answer with an unrelated younger stream (`EvictedStreamCanBeAnswered`,
  exact condition in `ReplayAfterIssuerGone`).
- `_copy_nested_dicts` is there so that repair cannot mutate the caller; a
  dotted value that is itself a dict is stored by reference and can be written
  to (`RepairWritesCaller`, exact condition in `ReconstructDottedArguments`).
- Numeric id suffixes depend on dict order (`OrderCanMatter`); all five tables
  are the same in every order exactly when sanitised names differ and no
  capability name is produced twice (`OrderFreeIff`).
- Evicting a backend whose reconnect failed routes its name to no capabilities
  at all (`EvictAfterFailedReconnect`, exact condition for any eviction in
  `EvictKeepsRoutesIff`).
- `ensure_connected` is documented as idempotent through the connect gate, and an
  evicted backend as still routed. The gate is consulted after the wait for the
  cap's victim, and every attempt replaces the connection object without looking
  at it again. So two calls for one evicted backend at a full cap can leave it
  neither cached nor live, and every sync drops its capabilities
  (`OverlappingCallsDropRoutes`). Over every interleaving, routes hold at every
  point exactly when each dial finds its backend down or its cache current, each
  eviction finds it connected or its cache current, and each attempt fails or
  comes up with what was cached (`RoutesKeptIff`).
- An OAuth refusal returns normally from `connect()`, so the cached capabilities
  of an evicted backend are dropped and its routes disappear
  (`ReconnectKeepsRoutesIff`).
- Enabling a configured but disabled server by reload never reaches the
  manager's configuration (`EnablingDoesNotConverge`, exact condition in
  `ReloadConvergesIff`).
- A drain that did not time out can disconnect a call in flight. It can after a
  step of a connect that lets requests in again, and after no other step
  (`DrainLosesCallIff`).
- A supervised retry takes edges that the designed lifecycle table does not have
  (`RetryLeavesTable`), and so does an attempt during which another task
  disconnects (`DisconnectDuringConnectLeavesTable`); exact condition in
  `RunOnTableIff`.
- Storing under a cached key can evict another entry; it does exactly when the
  cache is full and the key is not the least recently used one
  (`PutKeepsOthersIff`).

## Model

| member | source | states |
|---|---|---|
| `EventStore.RunKeepsInv` | src/slm_mcp_hub/streaming/event_store.py:121-145 | after every run of stores, ring drops, expiries, cap evictions and replays: ids are sequential, each buffer is a suffix of what was issued to its stream, streams are distinct and within the cap |
| `EventStore.GapFreeReplay` | src/slm_mcp_hub/streaming/event_store.py:147-220 | in every run, while the given id is buffered, replay names its stream and sends exactly the non-priming events ever issued to it afterwards, each once, in issue order |
| `EventStore.NoCrossStreamReplay` | src/slm_mcp_hub/streaming/event_store.py:171-214 | while the issuing stream is held with an event, replay answers with that stream or not at all, and answers exactly when the id is buffered or that stream is the only younger one |
| `EventStore.ReplayAfterIssuerGone` | src/slm_mcp_hub/streaming/event_store.py:188-214 | once the issuer is gone the answer is None exactly when the younger streams do not number one; otherwise an unrelated stream is replayed |
| `EventStore.ReplayOfUnissuedId` | src/slm_mcp_hub/streaming/event_store.py:188-214 | the same for sentinels such as -1; ids not issued yet are never answered |
| `EventStore.EvictedStreamCanBeAnswered` | src/slm_mcp_hub/streaming/event_store.py:158-162 | a two-event run in which the evicted stream's id is answered with another stream |
| `EventStore.ResumeWithinWindow` | src/slm_mcp_hub/streaming/event_store.py:121-220 | a client that received an id and missed fewer events than the ring holds, on a stream held and unexpired throughout, is replayed exactly what it missed |
| `EventStore.ResumeFromOperations` | src/slm_mcp_hub/streaming/event_store.py:121-273 | the same without looking at timestamps: stores to the stream and replays it answers follow each other within the TTL, fewer other streams than the cap were stored to since its first event, and fewer events than a ring holds were missed |
| `EventStore.ReplayRefreshes` | src/slm_mcp_hub/streaming/event_store.py:171-214 | an answered replay gives exactly the answering stream the present as its last activity, and changes nothing else |
| `EventStore.StorePrunesIdle` | src/slm_mcp_hub/streaming/event_store.py:261-273 | a store leaves no other stream idle longer than the TTL, and with room under the cap drops no other one |
| `EventStore.CapEvictsOldest` | src/slm_mcp_hub/streaming/event_store.py:239-259 | on a clock that never runs backwards, a new stream at the cap drops exactly one record, of least creation time |
| `EventStore.ByStreamFacts` | src/slm_mcp_hub/streaming/event_store.py:121-145 | a stream's part of the issue log is strictly increasing and is exactly what was issued to it |
| `EventStore.DeliverFacts` | src/slm_mcp_hub/streaming/event_store.py:180-184 | what is sent is increasing and is exactly the buffered non-priming events after the id |
| `EventStore.InMemoryEventStore.StoreEvent` | src/slm_mcp_hub/streaming/event_store.py:121-145 | keeps the invariant, takes the store step, returns the next id and logs the event |
| `EventStore.InMemoryEventStore.ReplayEventsAfter` | src/slm_mcp_hub/streaming/event_store.py:147-220 | keeps the invariant, takes the replay step, gives the answering stream the present as its last activity, and sends exactly what follows a buffered id |
| `EventStore.InMemoryEventStore.GetOrCreateStream` | src/slm_mcp_hub/streaming/event_store.py:239-259 | finds or creates the record, evicting the first one at the cap; fails only for a cap below one on an empty store |
| `EventStore.InMemoryEventStore.PruneExpiredStreams` | src/slm_mcp_hub/streaming/event_store.py:261-273 | keeps, in order, exactly the records not idle past the TTL |
| `DottedKeys.KeyPathInverse` | src/slm_mcp_hub/protocol/product_operations.py:148-149 | a dotted key is recovered from its segments, which hold no dot |
| `DottedKeys.PathKeyInverse` | src/slm_mcp_hub/protocol/product_operations.py:148-149 | dot-free segments are recovered from the key they spell |
| `DottedKeys.PrefixSortsFirst` | src/slm_mcp_hub/protocol/product_operations.py:133-133 | a key whose path is a proper prefix of another's sorts before it |
| `DottedKeys.SortKeys` | src/slm_mcp_hub/protocol/product_operations.py:133-133 | the sorted enumeration of a set of keys |
| `ArgumentRepair.InsertShape` | src/slm_mcp_hub/protocol/product_operations.py:116-157 | placing a value changes the tree at and below its path, makes objects above it, and leaves every other path alone |
| `ArgumentRepair.FreeShape` | src/slm_mcp_hub/protocol/product_operations.py:152-155 | a key is placed exactly when nothing is at its path and no scalar lies on the way |
| `ArgumentRepair.SameShape` | src/slm_mcp_hub/protocol/product_operations.py:108-113 | trees that look the same along every path are equal |
| `ArgumentRepair.ConflictPolicy` | src/slm_mcp_hub/protocol/product_operations.py:129-165 | for every payload: repaired and skipped partition the dotted keys, none is left in the envelope, everything in explicit object arguments is still found at every depth, no bare sibling is lost |
| `ArgumentRepair.RepairedValuesArrive` | src/slm_mcp_hub/protocol/product_operations.py:147-165 | every repaired key's whole value stands at its path in the arguments the caller gets back |
| `ArgumentRepair.NothingInvented` | src/slm_mcp_hub/protocol/product_operations.py:147-158 | nothing stands in the rebuilt tree that explicit arguments or a repaired key did not bring |
| `ArgumentRepair.NothingToRepair` | src/slm_mcp_hub/protocol/product_operations.py:134-141 | without dotted keys, or with `arguments` neither object nor null: nothing repaired, all skipped, bare keys unchanged |
| `ArgumentRepair.ArgumentsRebuilt` | src/slm_mcp_hub/protocol/product_operations.py:143-165 | with `arguments` present it becomes the rebuilt object and every other bare key stays |
| `ArgumentRepair.ArgumentsCreated` | src/slm_mcp_hub/protocol/product_operations.py:160-165 | without it a repair creates it, moving every bare sibling but `tool` inside, rebuilt names first; with nothing repaired the bare keys stay |
| `ArgumentRepair.EmptySegmentsAreSkipped` | src/slm_mcp_hub/protocol/product_operations.py:149-151 | a key with an empty segment is skipped |
| `ArgumentRepair.RepairPartitions` | src/slm_mcp_hub/protocol/product_operations.py:144-158 | both lists are sorted, disjoint and together the dotted keys |
| `ArgumentRepair.SkippedLeaveNoTrace` | src/slm_mcp_hub/protocol/product_operations.py:147-158 | dropping the skipped keys from the input gives the same tree: no value and no empty intermediate object remains |
| `ArgumentRepair.ExplicitWins` | src/slm_mcp_hub/protocol/product_operations.py:143-157 | whatever the explicit arguments hold at any path is unchanged |
| `ArgumentRepair.TopKeysWin` | src/slm_mcp_hub/protocol/product_operations.py:147-158 | decided by the input alone: eligible keys without an eligible proper prefix are repaired, ineligible keys are skipped, and any other winner lies inside an object that such a key brought |
| `ArgumentRepair.RepairInside` | src/slm_mcp_hub/protocol/product_operations.py:147-158 | what stands at a repaired key in the end is the repair of that key's own value by the keys below it, and the same keys win |
| `ArgumentRepair.WinnersDecided` | src/slm_mcp_hub/protocol/product_operations.py:147-158 | the input decides every winner: top keys win, ineligible ones lose, and a key below a top key wins exactly when it wins in the repair of that key's value |
| `ArgumentRepair.WinnersAreTopKeys` | src/slm_mcp_hub/protocol/product_operations.py:147-158 | without dotted objects the winners are exactly those keys and the result is, path by path, the explicit tree with their values laid over it |
| `ArgumentRepair.GraftsExactly` | src/slm_mcp_hub/protocol/product_operations.py:152-157 | some key is placed inside a dotted object exactly when the input has a top key with an object that leaves a longer key's remaining path free |
| `ArgumentRepair.RebuildFlattened` | src/slm_mcp_hub/protocol/product_operations.py:116-158 | rebuilding one flat key per leaf gives the tree back, nothing skipped |
| `ArgumentRepair.RoundTrip` | src/slm_mcp_hub/protocol/product_operations.py:129-165 | for every non-empty tree with non-empty dot-free keys, flattening and reconstructing the whole payload is the identity |
| `ArgumentHeap.Descend` | src/slm_mcp_hub/protocol/product_operations.py:116-126 | on mutable dicts: reaches the container creating exactly the missing dicts, or stops at a non-object having created nothing |
| `ArgumentHeap.CopyNestedDicts` | src/slm_mcp_hub/protocol/product_operations.py:108-113 | the copy holds the same tree in new dicts only; the original is unchanged |
| `ArgumentHeap.WriteLook` | src/slm_mcp_hub/protocol/product_operations.py:157-157 | adding an entry to an unshared dict changes what is found below that entry only |
| `ArgumentHeap.RepairLoop` | src/slm_mcp_hub/protocol/product_operations.py:147-158 | the loop on mutable dicts holds the tree of the functional repair and touches caller dicts only as the footprint says |
| `ArgumentHeap.ReconstructDottedArguments` | src/slm_mcp_hub/protocol/product_operations.py:129-165 | refines the repair on trees, and the caller's dicts are unmodified exactly when no dotted object is grafted into |
| `ArgumentHeap.PlainValuesAreSafe` | src/slm_mcp_hub/protocol/product_operations.py:129-165 | when no dotted value is an object the caller's payload is never mutated |
| `ArgumentHeap.DictValueIsWritten` | src/slm_mcp_hub/protocol/product_operations.py:152-157 | `arguments.a` holding a dict beside `arguments.a.b` does write to the caller's dict |
| `ArgumentHeap.RepairWritesCaller` | src/slm_mcp_hub/protocol/product_operations.py:129-165 | calling the repair on that payload in memory leaves the caller's dict changed |
| `Namespace.SafeServerId` | src/slm_mcp_hub/federation/namespace.py:12-17 | same length, alphanumerics kept, everything else an underscore |
| `Namespace.ParseRecovers` | src/slm_mcp_hub/federation/namespace.py:33-58 | parsing recovers id and name exactly for ids without `__` that do not end in `_` |
| `Namespace.NamespaceInjective` | src/slm_mcp_hub/federation/namespace.py:33-39 | with such ids, equal namespaced names have equal parts |
| `Namespace.MakeUniqueId` | src/slm_mcp_hub/federation/namespace.py:20-30 | terminates for every finite id set with an id outside it: the base, or the base with `_` and the least free number from two on |
| `Registry.CapabilityRegistry.SyncAll` | src/slm_mcp_hub/core/registry.py:93-183 | rebuilds all five tables; reports a change exactly when a set of tool, resource or prompt names changed |
| `Registry.SyncListsCapabilities` | src/slm_mcp_hub/core/registry.py:112-165 | each of the four tables lists exactly what the servers define of its kind: under id, delimiter and name, with the backend's own name to call and the namespaced definition to show, the last definition winning a name |
| `Registry.IdsAreDistinct` | src/slm_mcp_hub/core/registry.py:112-118 | whatever the names, no two servers share an id |
| `Registry.PlainIds` | src/slm_mcp_hub/core/registry.py:112-118 | with distinct sanitised names nobody gets a suffix |
| `Registry.LookupExact` | src/slm_mcp_hub/core/registry.py:75-165 | without clashes every lookup answers what that server alone defines |
| `Registry.SyncOrderFree` | src/slm_mcp_hub/core/registry.py:93-165 | without clashes the same servers in any order give identical tables |
| `Registry.OrderFreeIff` | src/slm_mcp_hub/core/registry.py:93-165 | the tables are the same in every dict order exactly when sanitised names differ and no two servers produce one capability name |
| `Registry.AmbiguousOrder` | src/slm_mcp_hub/core/registry.py:112-165 | every ambiguous dict has an order with different tables |
| `Registry.CleanIdsUnambiguous` | src/slm_mcp_hub/core/registry.py:112-165 | distinct clean ids rule clashes out whatever the capabilities are called |
| `Registry.OrderCanMatter` | src/slm_mcp_hub/core/registry.py:112-118 | two servers with one sanitised name swap ids with their order |
| `OrderedDict.PutMap` | src/slm_mcp_hub/federation/manager.py:659-665 | dict assignment on the ordered representation is map update and keeps keys unique |
| `Manager.ServerIffRoute` | src/slm_mcp_hub/federation/manager.py:651-666 | the merged dict handed to the registry holds exactly the cached routes overridden by the live ones |
| `Manager.SameRoutesSameTables` | src/slm_mcp_hub/federation/manager.py:651-666 | the tables are a function of the routes |
| `Manager.EvictKeepsRoutesIff` | src/slm_mcp_hub/federation/manager.py:345-391 | evicting keeps every route exactly when the backend is connected or its cache equals what the connection object reports |
| `Manager.RouteIs` | src/slm_mcp_hub/federation/manager.py:659-665 | a name routes to its connected backend's capabilities, else to the cached ones, else nowhere |
| `Manager.AttemptLeaves` | src/slm_mcp_hub/federation/manager.py:598-634 | a new object, connected exactly when it came up, with its capabilities; only a failure keeps the cache and is remembered; existing activity is not overwritten |
| `Manager.RemovedIsGone` | src/slm_mcp_hub/federation/manager.py:419-448 | a removed server has no route, connection, cache, timestamp, failure or configuration entry left |
| `Manager.DialKeepsRoutesIff` | src/slm_mcp_hub/federation/manager.py:600-602 | replacing the connection object keeps every route exactly when the backend is down or its cache is current |
| `Manager.ReconnectKeepsRoutesIff` | src/slm_mcp_hub/federation/manager.py:598-634 | for any backend, connected by another call or not: a failed attempt keeps the routes exactly when its dial did, one that comes up exactly when those capabilities were routed, an OAuth refusal exactly when nothing was |
| `Manager.EvictAfterFailedReconnect` | src/slm_mcp_hub/federation/manager.py:369-391 | after a failed reconnect an eviction routes the name to no capabilities; the routes survive exactly when that is what was cached |
| `Eviction.RoutesKeptIff` | src/slm_mcp_hub/federation/manager.py:345-639 | over every interleaving of evictions and connect attempts, restrained by pinning and the connect gate only, the routes hold at every point exactly when every step was harmless where it was taken |
| `Eviction.EvictionKeepsRouting` | src/slm_mcp_hub/federation/manager.py:345-391 | in a run of harmless steps a sync at any point gives the very same tables |
| `Eviction.OverlappingCallsDropRoutes` | src/slm_mcp_hub/federation/manager.py:527-639 | from every state with an evicted unpinned backend at a full cap, two overlapping calls for it reach a state without its routes |
| `Eviction.EvictSpares` | src/slm_mcp_hub/federation/manager.py:360-391 | pinned, always-on and unknown backends are spared; any other is cached as it was, stops serving under the same object and loses its timestamp |
| `Eviction.EnsureTouchesNobody` | src/slm_mcp_hub/federation/manager.py:527-541 | for a connected, unknown or pinned backend no other one is evicted |
| `Eviction.GatherIsSequential` | src/slm_mcp_hub/federation/eviction.py:259-273 | in whatever order the drains of a sweep end, the state is that of evicting one backend after the other |
| `Eviction.SelectLruVictim` | src/slm_mcp_hub/federation/lru.py:14-37 | a candidate with least recorded activity, missing entries counting as oldest; none only without candidates |
| `Eviction.CapVictim` | src/slm_mcp_hub/federation/manager.py:543-563 | at the cap exactly one backend leaves: the least recently active unpinned live one |
| `Eviction.BelowCap` | src/slm_mcp_hub/federation/manager.py:543-563 | below the cap, or without one, nobody leaves |
| `Eviction.LiveCapHolds` | src/slm_mcp_hub/federation/manager.py:527-563 | over every sequence of non-overlapping operations the live unpinned count stays within the larger of cap and start |
| `Eviction.OvershootBounded` | src/slm_mcp_hub/federation/manager.py:527-563 | when at most d calls overlap, with each other and with evictions, the live unpinned count stays within the larger of start and cap + d - 1 |
| `Eviction.TimestampIsRecent` | src/slm_mcp_hub/federation/eviction.py:115-138 | a recorded timestamp is never older than a completed call or first connect since it was cleared |
| `Eviction.ReapedIff` | src/slm_mcp_hub/federation/eviction.py:208-273 | over every history a sweep selects exactly the lazy backends, neither pinned nor always on, connected, without a call in flight, whose every completed call and first connect is more than the TTL ago |
| `Eviction.TimestampedIff` | src/slm_mcp_hub/federation/eviction.py:115-138 | a backend has a timestamp exactly when something was recorded for it and nothing dropped it since |
| `Eviction.ManagerRecords` | src/slm_mcp_hub/federation/manager.py:386-391 | a successful connect seeds the timestamp, an eviction or removal drops it |
| `Eviction.ReapingIsSafe` | src/slm_mcp_hub/federation/eviction.py:208-273 | over every history a sweep never selects an eager or pinned backend, one with a call in flight, or one active within the TTL |
| `Reload.ComputeDiff` | src/slm_mcp_hub/lifecycle/config_diff.py:66-114 | computes the four lists of the diff |
| `Reload.DiffFacts` | src/slm_mcp_hub/lifecycle/config_diff.py:66-114 | the lists are exactly the names of each classification, each server once |
| `Reload.DiffMeans` | src/slm_mcp_hub/lifecycle/config_diff.py:46-114 | added servers start to run, removed ones stop, modified ones run before and after with one of the seven hashed fields changed, unchanged ones with none |
| `Reload.ServerAtIsLast` | src/slm_mcp_hub/lifecycle/config_diff.py:66-80 | of several entries with one name the last counts |
| `Reload.EmptyDiffIff` | src/slm_mcp_hub/lifecycle/config_diff.py:66-114 | a diff is empty exactly when both configurations run the same servers with the same fingerprints |
| `Reload.ReloadAt` | src/slm_mcp_hub/lifecycle/reloader.py:54-123 | what the three phases leave under each name, from its classification alone |
| `Reload.ReloadConvergesIff` | src/slm_mcp_hub/lifecycle/reloader.py:54-123 | whatever the connect outcomes, reloading leaves an empty diff exactly when removed and modified servers have connection objects and added ones are unknown and not connected |
| `Reload.OrdinaryReloadConverges` | src/slm_mcp_hub/lifecycle/reloader.py:54-123 | enabled servers have connections, connections are configured and nothing goes from disabled to enabled: it converges |
| `Reload.UnchangedKeepConnection` | src/slm_mcp_hub/lifecycle/reloader.py:54-123 | servers the diff leaves alone keep their entry and the identical connection object |
| `Reload.EnablingDoesNotConverge` | src/slm_mcp_hub/federation/manager.py:405-410 | enabling a configured, disabled server never converges |
| `Federation.ConnectionManager.SyncRegistry` | src/slm_mcp_hub/federation/manager.py:651-676 | afterwards the registry shows exactly the merged cached and live capabilities |
| `Federation.ConnectionManager.Evict` | src/slm_mcp_hub/federation/manager.py:345-391 | takes the evict step and keeps registry and manager in agreement |
| `Federation.ConnectionManager.Dial` | src/slm_mcp_hub/federation/manager.py:600-602 | up to the await: a new connection object, whatever was there |
| `Federation.ConnectionManager.FinishConnect` | src/slm_mcp_hub/federation/manager.py:606-632 | after the await: the outcome's effect on connection, cache, activity and failures |
| `Federation.ConnectionManager.ConnectTimed` | src/slm_mcp_hub/federation/manager.py:598-634 | both in a row and a sync: takes the connect step for every outcome and ends in agreement |
| `Federation.ConnectionManager.ApplyLruCap` | src/slm_mcp_hub/federation/manager.py:543-563 | takes the cap step and keeps the agreement |
| `Federation.ConnectionManager.EnsureConnected` | src/slm_mcp_hub/federation/manager.py:527-541 | takes the ensure step; the answer says whether the backend is connected |
| `Federation.ConnectionManager.MarkActivity` | src/slm_mcp_hub/federation/eviction.py:115-121 | records the time for that backend only |
| `Federation.ConnectionManager.CheckAndEvict` | src/slm_mcp_hub/federation/eviction.py:208-273 | evicts exactly the backends the sweep selected, in whatever order their drains end |
| `Federation.ConnectionManager.AddServer` | src/slm_mcp_hub/federation/manager.py:393-417 | takes the add step; refuses a connected server and reports a failed connect |
| `Federation.ConnectionManager.RemoveServer` | src/slm_mcp_hub/federation/manager.py:419-448 | takes the remove step; reports a server without connection |
| `Federation.ConnectionManager.ReplaceServer` | src/slm_mcp_hub/federation/manager.py:450-473 | takes the replace step; reports a failed connect |
| `Federation.ConnectionManager.ApplyConfig` | src/slm_mcp_hub/lifecycle/reloader.py:54-123 | returns the diff of the old configuration and applies its three phases |
| `Drain.RunKeepsInv` | src/slm_mcp_hub/federation/connection.py:482-603 | in every interleaving: counter, drain lock and drain events are consistent |
| `Drain.NoLostWakeup` | src/slm_mcp_hub/federation/connection.py:492-515 | in every interleaving: the counter equals the unfinished dispatches, at most one drain is past the lock, and a waiting drain with nothing in flight can wake |
| `Drain.AcquiringWaitsIff` | src/slm_mcp_hub/federation/connection.py:492-504 | a drain with the lock waits exactly when CONNECTED or still DRAINING with calls in flight, and skips exactly in the other states |
| `Drain.DrainLosesNothing` | src/slm_mcp_hub/federation/connection.py:482-515 | while nothing reopens the connection during drains, a drain that does not time out disconnects with nothing in flight |
| `Drain.NoDispatchWhileDraining` | src/slm_mcp_hub/federation/connection.py:586-603 | while nothing reopens the connection during drains, the unfinished dispatches only become fewer while one is active |
| `Drain.OnlyConnectReopens` | src/slm_mcp_hub/federation/connection.py:335-397 | during a drain of an open connection the steps after which a request is accepted are precisely those of a connect |
| `Drain.ConnectDuringDrainLosesCall` | src/slm_mcp_hub/federation/connection.py:492-515 | once requests are accepted again, a drain that waits or closes after waiting can lose a call, whatever is in flight, without further connect steps |
| `Drain.DrainLosesCallIff` | src/slm_mcp_hub/federation/connection.py:335-515 | after any step during an undisturbed drain, losing a call without timing out is possible exactly when that step let requests in again; on an open connection, exactly for the steps of a connect |
| `Drain.WaitingDrainIsReachable` | src/slm_mcp_hub/federation/connection.py:482-515 | a drain waiting for a call is reached by connecting, starting the call and draining |
| `Drain.MCPConnection.StartCall` | src/slm_mcp_hub/federation/connection.py:586-597 | refused exactly when draining or not connected; otherwise one more in flight |
| `Drain.MCPConnection.FinishCall` | src/slm_mcp_hub/federation/connection.py:600-603 | one less in flight; the last one sets the drain event |
| `Drain.MCPConnection.StartDrain` | src/slm_mcp_hub/federation/connection.py:492-504 | skipped unless CONNECTED or DRAINING; otherwise DRAINING, with a new event exactly when calls are in flight |
| `Drain.MCPConnection.FinishDisconnect` | src/slm_mcp_hub/federation/connection.py:476-478 | DISCONNECTED without an outbound client; the in-flight count and the events are kept |
| `ConnectGate.AtMostOneAttempt` | src/slm_mcp_hub/federation/manager.py:584-639 | in every interleaving one attempt per backend at most, and the gate is closed exactly while one runs, whatever way attempts end |
| `ConnectGate.JoinerIsNeverStranded` | src/slm_mcp_hub/federation/manager.py:591-593 | a joiner may return exactly when its attempt no longer runs |
| `ConnectGate.JoinerOutlivesAttempt` | src/slm_mcp_hub/federation/manager.py:591-639 | between a joiner's call and its return lies the end of the attempt it found, by the caller that ran it |
| `ConnectGate.SingleFlight.Enter` | src/slm_mcp_hub/federation/manager.py:591-596 | joins the attempt under way or opens a new one |
| `ConnectGate.SingleFlight.Release` | src/slm_mcp_hub/federation/manager.py:635-639 | sets the event and removes the entry |
| `Classifier.CauseChain` | src/slm_mcp_hub/resilience/classifier.py:175-219 | computes the chain |
| `Classifier.ChainFacts` | src/slm_mcp_hub/resilience/classifier.py:175-219 | the chain starts at the exception, follows the cause, or without one the context unless suppressed, without repetition, and stops only at its end, a cycle or twenty entries |
| `Classifier.ClassifyFailure` | src/slm_mcp_hub/resilience/classifier.py:108-167 | AUTH exactly when some entry of the chain is an authentication error, TERMINAL exactly when none is and some entry is terminal |
| `Classifier.WrappedChain` | src/slm_mcp_hub/resilience/classifier.py:195-219 | wrapping puts the wrappers in front and cuts at twenty, cyclic or not |
| `Classifier.WrappingKeepsClassIff` | src/slm_mcp_hub/resilience/classifier.py:108-219 | re-raising any number of times keeps the class exactly when it is TRANSIENT or the deciding exception stays within twenty entries |
| `Supervisor.BreakerClosedForm` | src/slm_mcp_hub/resilience/supervisor.py:350-473 | over every run: open exactly when the current failure run reached the threshold, cycles sum each run's excess, attention exactly while open after enough cycles, restarts count successes |
| `Supervisor.RunsSpellHistory` | src/slm_mcp_hub/resilience/supervisor.py:350-473 | the failure runs are maximal: joined by single successes they are the history |
| `Supervisor.SleepsBounded` | src/slm_mcp_hub/resilience/supervisor.py:196-208 | every sleep of every run lies between zero and the maximal backoff |
| `Supervisor.RetrySleeps` | src/slm_mcp_hub/resilience/supervisor.py:418-473 | a retry sleeps once, the maximum while the breaker is open and else the backoff of its number in the failure run, in CIRCUIT_OPEN or RECONNECTING |
| `Supervisor.EndingFailure` | src/slm_mcp_hub/resilience/supervisor.py:391-416 | a terminal failure ends in FAILED, an authentication failure where it is, without a sleep |
| `Supervisor.SuccessfulAttempt` | src/slm_mcp_hub/resilience/supervisor.py:350-361 | a success clears failures, breaker and attention, counts a restart and keeps the cycles |
| `Supervisor.MovedOnAttempt` | src/slm_mcp_hub/resilience/supervisor.py:317-328 | an attempt that finds the connection moved on changes no counter and sleeps once |
| `Supervisor.BackoffIs` | src/slm_mcp_hub/resilience/supervisor.py:196-208 | the draw's share of the lesser of the maximum and base times factor to the attempt |
| `Supervisor.PowAdds` | src/slm_mcp_hub/resilience/supervisor.py:196-208 | the power is a power: exponents add |
| `Supervisor.NoAttemptAfterEnd` | src/slm_mcp_hub/resilience/supervisor.py:259-335 | a terminal or authentication failure, on either path, is the run's last attempt; otherwise the loop goes on |
| `Supervisor.WrappedFailureEndsRun` | src/slm_mcp_hub/resilience/supervisor.py:385-416 | an authentication or terminal failure re-raised any number of times within reach still ends the run |
| `Supervisor.AttemptsMade` | src/slm_mcp_hub/resilience/supervisor.py:259-335 | up to the first ending outcome every outcome is one attempt |
| `Supervisor.RunOnTableIff` | src/slm_mcp_hub/resilience/lifecycle.py:66-130 | from the starting state and the outcomes alone, which carry the state other tasks left when the await returned and at the next pass: a run stays on the designed table exactly when no pass up to the ending one leaves it |
| `Supervisor.DisconnectDuringConnectLeavesTable` | src/slm_mcp_hub/federation/connection.py:345-380 | a disconnect during an attempt that succeeds leaves the table |
| `Supervisor.RetryLeavesTable` | src/slm_mcp_hub/resilience/supervisor.py:418-471 | one transient failure is enough to leave the table |
| `Supervisor.ConnectionSupervisor.SupervisedLoop` | src/slm_mcp_hub/resilience/supervisor.py:237-348 | the loop ends in the state of the run over the backend's answers |
| `Supervisor.ConnectionSupervisor.HandleConnectFailure` | src/slm_mcp_hub/resilience/supervisor.py:363-473 | counters, state changes, sleep and stop of one failed attempt |
| `Supervisor.ConnectionSupervisor.ComputeBackoff` | src/slm_mcp_hub/resilience/supervisor.py:196-208 | full-jitter backoff for a given draw |
| `Cache.HitIsLatestPut` | src/slm_mcp_hub/intelligence/cache.py:98-126 | over any run a hit returns the latest put for that key, not invalidated or cleared since, within its TTL |
| `Cache.LookupMeans` | src/slm_mcp_hub/intelligence/cache.py:98-126 | a lookup hits exactly a cached entry whose age is at most its TTL and moves its key to the end; an older entry is removed |
| `Cache.StoredUnlessExcluded` | src/slm_mcp_hub/intelligence/cache.py:92-149 | a tool on the no-cache list, plain or under a server id, is neither stored nor found; any other is stored with its own TTL or the default |
| `Cache.CleanupMeans` | src/slm_mcp_hub/intelligence/cache.py:202-206 | a cleanup keeps exactly the entries whose age is at most their TTL |
| `Cache.LookupsCounted` | src/slm_mcp_hub/intelligence/cache.py:98-126 | every lookup is counted once, as a hit or a miss |
| `Cache.RunKeepsInv` | src/slm_mcp_hub/intelligence/cache.py:98-206 | the order list holds exactly the cached keys, once each, and the size stays within the maximum |
| `Cache.OrderIsLastUse` | src/slm_mcp_hub/intelligence/cache.py:184-187 | over any run the order is that of the last put or hit |
| `Cache.VictimIsLeastRecent` | src/slm_mcp_hub/intelligence/cache.py:143-195 | capacity evicts only from a full cache and only the least recently used key |
| `Cache.RecentKeysSurvive` | src/slm_mcp_hub/intelligence/cache.py:128-195 | a key survives every sequence of operations with fewer uses than the capacity since it was last used, unless invalidated, cleared or found expired |
| `Cache.PutOnCachedKeyShrinks` | src/slm_mcp_hub/intelligence/cache.py:143-147 | storing under a cached key in a full cache leaves one entry less, unless the key itself was the victim |
| `Cache.PutKeepsOthersIff` | src/slm_mcp_hub/intelligence/cache.py:143-149 | a put under a cached key keeps every other entry exactly when the cache was not full or that key was the least recently used |
| `Cache.KeysIdentifyCalls` | src/slm_mcp_hub/intelligence/cache.py:30-34 | with clean server names equal keys mean the same server, tool and digest |
| `Cache.InvalidatesExactlyServer` | src/slm_mcp_hub/intelligence/cache.py:151-163 | among clean names, invalidating a server hits exactly its entries |
| `Cache.InvalidatesExactlyTool` | src/slm_mcp_hub/intelligence/cache.py:151-163 | and with a tool named exactly that tool's entries |
| `Cache.CacheEngine.Lookup` | src/slm_mcp_hub/intelligence/cache.py:98-126 | answers the entry exactly on a hit, and takes the get step |
| `Cache.CacheEngine.Store` | src/slm_mcp_hub/intelligence/cache.py:128-149 | the eviction loop terminates after at most one eviction; takes the put step |
| `Cache.CacheEngine.Invalidate` | src/slm_mcp_hub/intelligence/cache.py:151-163 | removes exactly the keys with the prefix and counts them |
| `Cache.CacheEngine.CleanupExpired` | src/slm_mcp_hub/intelligence/cache.py:202-206 | removes exactly the expired entries |
| `Probe.IsDiscoverProbeRejection` | src/slm_mcp_hub/protocol/outbound.py:444-473 | terminates on every finite graph and answers exactly whether an exception mentioning "closed" is reachable |
| `Probe.OutboundClient.Connect` | src/slm_mcp_hub/protocol/outbound.py:178-280 | two handshakes exactly when in auto mode and the first was rejected by the probe; the result, the connected flag and the authorization flag follow the last handshake |
| `Probe.OutboundClient.Disconnect` | src/slm_mcp_hub/protocol/outbound.py:282-288 | no longer connected; mode and authorization flag are kept |
| `Probe.OutboundClient.Serve` | src/slm_mcp_hub/protocol/outbound.py:178-288 | any sequence of connects and disconnects of a new client ends in the folded state with the folded handshake count |
| `Probe.FallsBackOnce` | src/slm_mcp_hub/protocol/outbound.py:243-255 | over that fold each connect of an unconnected client costs one handshake and there is one more in all exactly when such a connect's probe was ever rejected |
| `Resume.UpstreamCalls` | src/slm_mcp_hub/streaming/resume.py:124-162 | the first call carries the held token; a second is made exactly after a closed connection or a resumption error with a token held, and carries the latest token |
| `Resume.FinalEnd` | src/slm_mcp_hub/streaming/resume.py:124-171 | the end of the second call if there was one, else of the first, unless cut off |
| `Resume.RunWithSafeResume` | src/slm_mcp_hub/streaming/resume.py:124-171 | for every backend behaviour makes those calls, ends as the last call did, and holds no token on any exit; other calls' tokens are untouched |
| `Resume.ResumableCallContext.GetToken` | src/slm_mcp_hub/streaming/resumable.py:119-129 | answers the held token and caches it |
| `Resume.ResumableCallContext.OnTokenUpdate` | src/slm_mcp_hub/streaming/resumable.py:131-140 | the new token is held and persisted |
| `Resume.ResumableCallContext.Clear` | src/slm_mcp_hub/streaming/resumable.py:142-151 | no token is held or persisted afterwards |

## Left out

- Everything between the hub and the outside: transports and their servers, the command line and dashboard, discovery, the OAuth broker, plugins, databases, audit and webhooks. Their behaviour is that of libraries and other processes.
- The bookkeeping components beside the ones modelled (sessions, locks, cost, permissions, metrics, timeouts, learning, filtering, configuration files). Each is one table with reads and writes, without a property that spans several operations.
- Event ids are the integers they denote; `int()` parsing of the text, and an id that does not parse, is the absent target. A negative ring size, which the deque rejects, is not modelled. One `now` stands for the clock readings of one locked section.
- JSON values: lists count as scalars, because repair never looks inside them. `_coerce_object` and `_normalise_tool_arguments`, which parse JSON text and drop stray keys, are not modelled.
- ArgumentHeap.ReconstructDottedArguments: assumes what a decoded JSON payload guarantees, that no dict object occurs twice in the payload.
- The order of keys inside dicts of arguments is not modelled; maps have no order.
- Namespaced definitions are modelled by name and original definition; the copied dict fields of `namespace_tool` and its siblings are not.
- The fingerprint hash and the argument digest are taken to be injective and are modelled by what they hash or as parameters.
- Eviction.LiveCapHolds: is about calls one after the other; overlapping calls, for which the source promises a soft cap only, are the subject of `OvershootBounded`. There the victim's activity entry is dropped when it stops serving, not when its drain ends.
- Eviction.RoutesKeptIff: a connection that drops by itself and an explicit disconnect or removal are no steps of the runs; they take a backend's capabilities away by design.
- Federation.ConnectionManager.ConnectTimed: combines `Dial` and `FinishConnect`; what runs in between is the subject of `ConnectGate`, `Drain`, `Eviction.RoutesKeptIff` and `Eviction.OvershootBounded`. The error texts in `_failed`, `_connect_times`, event-bus subscriptions and notifier calls are not modelled.
- Federation.ConnectionManager.CheckAndEvict: nothing but the evictions of the sweep runs while their drains end; `IdleReaper` is part of the manager class, and its background loop is not modelled.
- Federation.ConnectionManager.ApplyConfig: drains always end, and no exception escapes a manager call during a reload; the reload lock makes reloads non-overlapping.
- `connect_all`, `reconnect`, `disconnect_one`, `disconnect_all` and `fast_retry_failed` of the manager: compositions of the steps modelled here.
- Drain: subscribers and lifecycle events of a connection are not modelled; a task may be cancelled at any of its awaits.
- Supervisor.SleepsBounded: for non-negative base, factor and maximum, over the reals; `health_snapshot`, `last_error` and timestamps are not modelled. An iteration that waits for stop is the end of the run.
- Cache: `hit_count` of an entry, which nothing reads, and the log lines. `max_entries` is at least one; below that the eviction loop of the source does not terminate.
- Probe: whether an exception's text mentions "closed" is a field of the node.
- Resume.RunWithSafeResume: a second cancellation that arrives while the context is being cleared is not modelled, nor are persistence backends that fail.
