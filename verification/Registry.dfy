/** The capability registry: an index of every namespaced capability, rebuilt from the servers in dict order. */
module Registry {
  import opened Namespace

  /** A capability definition: the field that names it, and the rest. */
  datatype Def = Def(name: string, body: string)

  datatype Caps = Caps(tools: seq<Def>, resources: seq<Def>, templates: seq<Def>, prompts: seq<Def>)

  const NO_CAPS: Caps := Caps([], [], [], [])

  datatype Kind = Tools | Resources | Templates | Prompts

  function DefsOf(caps: Caps, kind: Kind): seq<Def> {
    match kind
    case Tools => caps.tools
    case Resources => caps.resources
    case Templates => caps.templates
    case Prompts => caps.prompts
  }

  /** One item of the `servers` dict. */
  datatype Server = Server(name: string, caps: Caps)

  datatype Registered = Registered(server: string, id: string, original: string, definition: Def)

  type Index = map<string, Registered>

  datatype Tables = Tables(tools: Index, resources: Index, templates: Index, prompts: Index, ids: map<string, string>)

  ghost predicate DistinctNames(servers: seq<Server>) {
    forall i, j :: 0 <= i < j < |servers| ==> servers[i].name != servers[j].name
  }

  // ---------------------------------------------------------------------
  // Sync, one server after the other
  // ---------------------------------------------------------------------

  function Register(server: string, id: string, d: Def): Registered {
    Registered(server, id, d.name, d.(name := NamespaceName(id, d.name)))
  }

  function AddAll(index: Index, server: string, id: string, defs: seq<Def>): Index {
    if defs == [] then index
    else
      var d := defs[|defs| - 1];
      AddAll(index, server, id, defs[..|defs| - 1])[NamespaceName(id, d.name) := Register(server, id, d)]
  }

  function AssignIds(servers: seq<Server>): (ids: map<string, string>)
    ensures forall i :: 0 <= i < |servers| ==> servers[i].name in ids
  {
    if servers == [] then map[]
    else
      var ids, name := AssignIds(servers[..|servers| - 1]), servers[|servers| - 1].name;
      ids[name := UniqueId(SafeServerId(name), ids.Values)]
  }

  function Build(servers: seq<Server>, kind: Kind): Index {
    if servers == [] then map[]
    else
      var s := servers[|servers| - 1];
      AddAll(Build(servers[..|servers| - 1], kind), s.name, AssignIds(servers)[s.name], DefsOf(s.caps, kind))
  }

  function Sync(servers: seq<Server>): Tables {
    Tables(Build(servers, Tools), Build(servers, Resources), Build(servers, Templates), Build(servers, Prompts),
           AssignIds(servers))
  }

  class CapabilityRegistry {
    var tools: Index
    var resources: Index
    var templates: Index
    var prompts: Index
    var serverIds: map<string, string>

    function View(): Tables
      reads this
    {
      Tables(tools, resources, templates, prompts, serverIds)
    }

    constructor ()
      ensures View() == Sync([])
    {
      tools, resources, templates, prompts, serverIds := map[], map[], map[], map[], map[];
    }

    static method IndexAll(index: Index, server: string, id: string, defs: seq<Def>) returns (r: Index)
      ensures r == AddAll(index, server, id, defs)
    {
      r := index;
      for i := 0 to |defs|
        invariant r == AddAll(index, server, id, defs[..i])
      {
        assert defs[..i + 1][..i] == defs[..i];
        r := r[NamespaceName(id, defs[i].name) := Register(server, id, defs[i])];
      }
      assert defs[..|defs|] == defs;
    }

    /** Rebuild every table and swap them in; the result says whether a set of names changed
        (the resource templates are not compared). */
    method SyncAll(servers: seq<Server>) returns (changed: bool)
      requires DistinctNames(servers)
      modifies this
      ensures View() == Sync(servers)
      ensures changed <==> tools.Keys != old(tools.Keys) || resources.Keys != old(resources.Keys)
                           || prompts.Keys != old(prompts.Keys)
    {
      var t, r, m, p: Index := map[], map[], map[], map[];
      var ids: map<string, string> := map[];
      var used: set<string> := {};
      for i := 0 to |servers|
        invariant View() == old(View())
        invariant Tables(t, r, m, p, ids) == Sync(servers[..i]) && used == ids.Values
      {
        var s := servers[i];
        NewName(servers, i);
        SyncStep(servers, i);
        var id := MakeUniqueId(SafeServerId(s.name), used);
        NewValue(ids, s.name, id);
        used, ids := used + {id}, ids[s.name := id];
        t := IndexAll(t, s.name, id, s.caps.tools);
        r := IndexAll(r, s.name, id, s.caps.resources);
        m := IndexAll(m, s.name, id, s.caps.templates);
        p := IndexAll(p, s.name, id, s.caps.prompts);
      }
      assert servers[..|servers|] == servers;
      changed := t.Keys != tools.Keys || r.Keys != resources.Keys || p.Keys != prompts.Keys;
      tools, resources, templates, prompts, serverIds := t, r, m, p, ids;
    }
  }

  /** Adding one more server. */
  lemma SyncStep(servers: seq<Server>, n: nat)
    requires n < |servers|
    ensures var s, before := servers[n], Sync(servers[..n]);
            var id := UniqueId(SafeServerId(s.name), before.ids.Values);
            Sync(servers[..n + 1]) ==
              Tables(AddAll(before.tools, s.name, id, s.caps.tools),
                     AddAll(before.resources, s.name, id, s.caps.resources),
                     AddAll(before.templates, s.name, id, s.caps.templates),
                     AddAll(before.prompts, s.name, id, s.caps.prompts),
                     before.ids[s.name := id])
  {
    assert servers[..n + 1][..n] == servers[..n];
  }

  lemma NewValue(m: map<string, string>, k: string, v: string)
    requires k !in m
    ensures m[k := v].Values == m.Values + {v}
  {
    var m' := m[k := v];
    forall x | x in m.Values + {v} ensures x in m'.Values {
      if x == v {
        assert m'[k] == v;
      } else {
        var y :| y in m && m[y] == x;
        assert m'[y] == x;
      }
    }
  }

  lemma NewName(servers: seq<Server>, n: nat)
    requires DistinctNames(servers) && n < |servers|
    ensures servers[n].name !in AssignIds(servers[..n])
  {
    IdNames(servers[..n]);
  }

  lemma {:induction false} IdNames(servers: seq<Server>)
    ensures forall k :: k in AssignIds(servers) <==> exists i :: 0 <= i < |servers| && servers[i].name == k
  {
    if servers != [] {
      var init := servers[..|servers| - 1];
      IdNames(init);
      forall k | k in AssignIds(init) ensures exists i :: 0 <= i < |servers| && servers[i].name == k {
        var i :| 0 <= i < |init| && init[i].name == k;
        assert servers[i].name == k;
      }
    }
  }

  // ---------------------------------------------------------------------
  // Ids
  // ---------------------------------------------------------------------

  /** The next server gets an id of its own and the earlier ones keep theirs. */
  lemma NextId(servers: seq<Server>, n: nat)
    requires DistinctNames(servers) && n < |servers|
    ensures var ids, ids' := AssignIds(servers[..n]), AssignIds(servers[..n + 1]);
            && servers[n].name !in ids && ids'[servers[n].name] !in ids.Values
            && (forall k :: k in ids ==> k in ids' && ids'[k] == ids[k])
  {
    NewName(servers, n);
    assert servers[..n + 1][..n] == servers[..n];
  }

  /** Whatever the server names, no two servers share an id. */
  lemma {:induction false} IdsAreDistinct(servers: seq<Server>, i: nat, j: nat)
    requires DistinctNames(servers) && i < j < |servers|
    ensures AssignIds(servers)[servers[i].name] != AssignIds(servers)[servers[j].name]
  {
    var n := |servers| - 1;
    var init := servers[..n];
    assert servers[..n + 1] == servers;
    NextId(servers, n);
    assert init[i].name in AssignIds(init);
    if j < n {
      IdsAreDistinct(init, i, j);
      assert init[j].name in AssignIds(init);
    }
  }

  ghost predicate DistinctSafe(servers: seq<Server>) {
    forall i, j :: 0 <= i < j < |servers| ==> SafeServerId(servers[i].name) != SafeServerId(servers[j].name)
  }

  /** When the sanitised names differ, nobody gets a numeric suffix. */
  lemma {:induction false} PlainIds(servers: seq<Server>)
    requires DistinctNames(servers) && DistinctSafe(servers)
    ensures AssignIds(servers).Keys == set i | 0 <= i < |servers| :: servers[i].name
    ensures forall k :: k in AssignIds(servers) ==> AssignIds(servers)[k] == SafeServerId(k)
  {
    if servers != [] {
      var n := |servers| - 1;
      var init := servers[..n];
      PlainIds(init);
      var ids := AssignIds(init);
      assert SafeServerId(servers[n].name) !in ids.Values by {
        forall k | k in ids ensures ids[k] != SafeServerId(servers[n].name) {
          var i :| 0 <= i < n && init[i].name == k;
          assert servers[i].name == k;
        }
      }
    }
    IdNames(servers);
  }

  // ---------------------------------------------------------------------
  // What a lookup returns
  // ---------------------------------------------------------------------

  /** The entry under `key` for one definition of one server: the backend's own name to call it by, and
      the definition listed to clients under the namespaced name. */
  ghost predicate Describes(e: Registered, key: string, server: string, id: string, d: Def) {
    && e.server == server && e.id == id && e.original == d.name
    && key == id + "__" + d.name && e.definition.name == key && e.definition.body == d.body
  }

  /** Definition `j` is the last one of these that is listed under `key`. */
  ghost predicate LastNamed(defs: seq<Def>, id: string, key: string, j: int) {
    0 <= j < |defs| && id + "__" + defs[j].name == key && NoneNamed(defs[j + 1..], id, key)
  }

  ghost predicate NoneNamed(defs: seq<Def>, id: string, key: string) {
    forall d :: d in defs ==> id + "__" + d.name != key
  }

  lemma {:induction false} AddAllLast(index: Index, server: string, id: string, defs: seq<Def>, key: string)
    returns (j: int)
    ensures var after := AddAll(index, server, id, defs);
            if j >= 0 then
              LastNamed(defs, id, key, j) && key in after && Describes(after[key], key, server, id, defs[j])
            else
              && NoneNamed(defs, id, key)
              && (key in after <==> key in index) && (key in index ==> after[key] == index[key])
  {
    j := -1;
    if defs != [] {
      var n := |defs| - 1;
      if id + "__" + defs[n].name == key {
        j := n;
        assert defs[n + 1..] == [];
      } else {
        j := AddAllLast(index, server, id, defs[..n], key);
        assert defs == defs[..n] + [defs[n]];
        if j >= 0 {
          assert defs[j + 1..] == defs[..n][j + 1..] + [defs[n]];
        }
      }
    }
  }

  /** Server `i` is the last one with a definition of this kind listed under `key`, and its definition `j` the last. */
  ghost predicate LastOffer(servers: seq<Server>, kind: Kind, key: string, i: int, j: int) {
    && 0 <= i < |servers| && servers[i].name in AssignIds(servers)
    && LastNamed(DefsOf(servers[i].caps, kind), AssignIds(servers)[servers[i].name], key, j)
    && NoLaterOffer(servers, kind, key, i)
  }

  ghost predicate NoLaterOffer(servers: seq<Server>, kind: Kind, key: string, i: int) {
    forall k :: 0 <= k < |servers| && i < k ==> NotOffered(servers, kind, key, k)
  }

  ghost predicate NotOffered(servers: seq<Server>, kind: Kind, key: string, k: nat)
    requires k < |servers|
  {
    servers[k].name in AssignIds(servers) &&
    NoneNamed(DefsOf(servers[k].caps, kind), AssignIds(servers)[servers[k].name], key)
  }

  lemma {:induction false} BuildLast(servers: seq<Server>, kind: Kind, key: string) returns (i: int, j: int)
    requires DistinctNames(servers)
    ensures i >= 0 ==> LastOffer(servers, kind, key, i, j) && key in Build(servers, kind)
    ensures i >= 0 ==> Describes(Build(servers, kind)[key], key, servers[i].name, AssignIds(servers)[servers[i].name],
                                 DefsOf(servers[i].caps, kind)[j])
    ensures i < 0 ==> i == -1 && key !in Build(servers, kind) && NoLaterOffer(servers, kind, key, -1)
  {
    i, j := -1, -1;
    if servers != [] {
      var n := |servers| - 1;
      var init, s, ids := servers[..n], servers[n], AssignIds(servers);
      assert servers[..n + 1] == servers;
      NextId(servers, n);
      j := AddAllLast(Build(init, kind), s.name, ids[s.name], DefsOf(s.caps, kind), key);
      if j >= 0 {
        i := n;
      } else {
        i, j := BuildLast(init, kind, key);
        forall k | 0 <= k < |servers| && i < k ensures NotOffered(servers, kind, key, k) {
          EarlierOffer(servers, kind, key, k);
          assert k < n ==> NotOffered(init, kind, key, k);
        }
      }
    }
  }

  /** A server's id is the same in the whole as in the beginning of the dict. */
  lemma EarlierOffer(servers: seq<Server>, kind: Kind, key: string, k: nat)
    requires DistinctNames(servers) && k < |servers|
    ensures servers[k].name in AssignIds(servers)
    ensures var init := servers[..|servers| - 1];
            k < |init| ==> init[k] == servers[k] && init[k].name in AssignIds(init) &&
                           AssignIds(servers)[servers[k].name] == AssignIds(init)[init[k].name]
  {
    var n := |servers| - 1;
    assert servers[..n + 1] == servers;
    NextId(servers, n);
    assert k < n ==> servers[..n][k].name in AssignIds(servers[..n]);
  }

  /** `table` holds exactly the definitions `defs` lists for each server, the last one winning each name. */
  ghost predicate Indexes(servers: seq<Server>, ids: map<string, string>, table: Index, defs: Server -> seq<Def>) {
    && (forall i :: 0 <= i < |servers| ==> servers[i].name in ids)
    && (forall i, d :: 0 <= i < |servers| && d in defs(servers[i]) ==> ids[servers[i].name] + "__" + d.name in table)
    && (forall key :: key in table ==> Listed(servers, ids, table[key], key, defs))
  }

  /** The entry describes a definition that no later definition and no later server overrides. */
  ghost predicate Listed(servers: seq<Server>, ids: map<string, string>, e: Registered, key: string,
                         defs: Server -> seq<Def>)
  {
    exists i, j :: 0 <= i < |servers| && 0 <= j < |defs(servers[i])| && servers[i].name in ids
                   && Describes(e, key, servers[i].name, ids[servers[i].name], defs(servers[i])[j])
                   && NoneNamed(defs(servers[i])[j + 1..], ids[servers[i].name], key)
                   && forall k :: i < k < |servers| && servers[k].name in ids ==>
                        NoneNamed(defs(servers[k]), ids[servers[k].name], key)
  }

  ghost function ToolsOf(s: Server): seq<Def> {
    s.caps.tools
  }

  ghost function ResourcesOf(s: Server): seq<Def> {
    s.caps.resources
  }

  ghost function TemplatesOf(s: Server): seq<Def> {
    s.caps.templates
  }

  ghost function PromptsOf(s: Server): seq<Def> {
    s.caps.prompts
  }

  lemma BuildIndexes(servers: seq<Server>, kind: Kind, defs: Server -> seq<Def>)
    requires DistinctNames(servers) && forall s :: defs(s) == DefsOf(s.caps, kind)
    ensures Indexes(servers, AssignIds(servers), Build(servers, kind), defs)
  {
    var ids := AssignIds(servers);
    forall key | key in Build(servers, kind) ensures Listed(servers, ids, Build(servers, kind)[key], key, defs) {
      var i, j := BuildLast(servers, kind, key);
      forall k | i < k < |servers| && servers[k].name in ids
        ensures NoneNamed(defs(servers[k]), ids[servers[k].name], key)
      {
        assert NotOffered(servers, kind, key, k);
      }
    }
    forall i, d | 0 <= i < |servers| && d in defs(servers[i])
      ensures ids[servers[i].name] + "__" + d.name in Build(servers, kind)
    {
      var key := ids[servers[i].name] + "__" + d.name;
      var x, y := BuildLast(servers, kind, key);
      assert x < 0 ==> NotOffered(servers, kind, key, i);
    }
  }

  /** After a sync each table lists, under id, delimiter and name, exactly what the servers define of its kind. */
  lemma SyncListsCapabilities(servers: seq<Server>)
    requires DistinctNames(servers)
    ensures var t := Sync(servers);
            && Indexes(servers, t.ids, t.tools, ToolsOf)
            && Indexes(servers, t.ids, t.resources, ResourcesOf)
            && Indexes(servers, t.ids, t.templates, TemplatesOf)
            && Indexes(servers, t.ids, t.prompts, PromptsOf)
  {
    BuildIndexes(servers, Tools, ToolsOf);
    BuildIndexes(servers, Resources, ResourcesOf);
    BuildIndexes(servers, Templates, TemplatesOf);
    BuildIndexes(servers, Prompts, PromptsOf);
  }

  // ---------------------------------------------------------------------
  // The tables do not depend on the dict order
  // ---------------------------------------------------------------------

  /** What one server contributes to a table. */
  function Own(name: string, defs: seq<Def>): Index {
    AddAll(map[], name, SafeServerId(name), defs)
  }

  lemma {:induction false} AddAllMerges(index: Index, server: string, id: string, defs: seq<Def>)
    ensures AddAll(index, server, id, defs) == index + AddAll(map[], server, id, defs)
  {
    if defs != [] {
      AddAllMerges(index, server, id, defs[..|defs| - 1]);
    }
  }

  lemma {:induction false} OwnNames(name: string, defs: seq<Def>, key: string)
    ensures key in Own(name, defs) <==>
            exists i :: 0 <= i < |defs| && NamespaceName(SafeServerId(name), defs[i].name) == key
    ensures key in Own(name, defs) ==> Own(name, defs)[key].server == name
  {
    if defs != [] {
      var n := |defs| - 1;
      OwnNames(name, defs[..n], key);
      if i :| 0 <= i < n && NamespaceName(SafeServerId(name), defs[..n][i].name) == key {
        assert defs[i] == defs[..n][i];
      }
      if i :| 0 <= i < |defs| && NamespaceName(SafeServerId(name), defs[i].name) == key {
        assert i < n ==> defs[..n][i] == defs[i];
      }
    }
  }

  /** No namespaced name is produced by two servers. */
  ghost predicate NoClash(servers: seq<Server>, kind: Kind) {
    forall i, j, key :: 0 <= i < |servers| && 0 <= j < |servers| && i != j && Offers(servers[i], kind, key) ==>
      !Offers(servers[j], kind, key)
  }

  ghost predicate Offers(s: Server, kind: Kind, key: string) {
    key in Own(s.name, DefsOf(s.caps, kind))
  }

  ghost predicate Unambiguous(servers: seq<Server>) {
    DistinctNames(servers) && DistinctSafe(servers) && forall kind :: NoClash(servers, kind)
  }

  lemma BuildStep(servers: seq<Server>, kind: Kind)
    requires servers != [] && DistinctNames(servers) && DistinctSafe(servers)
    ensures var n := |servers| - 1;
            Build(servers, kind) == Build(servers[..n], kind) + Own(servers[n].name, DefsOf(servers[n].caps, kind))
  {
    var n := |servers| - 1;
    var s := servers[n];
    PlainIds(servers);
    AddAllMerges(Build(servers[..n], kind), s.name, SafeServerId(s.name), DefsOf(s.caps, kind));
  }

  lemma OffersSnoc(servers: seq<Server>, kind: Kind, key: string)
    requires servers != []
    ensures var n := |servers| - 1;
            (exists i :: 0 <= i < |servers| && Offers(servers[i], kind, key)) <==>
            (exists i :: 0 <= i < n && Offers(servers[..n][i], kind, key)) || Offers(servers[n], kind, key)
  {
    var n := |servers| - 1;
    assert forall i :: 0 <= i < n ==> servers[..n][i] == servers[i];
  }

  lemma {:induction false} BuildMember(servers: seq<Server>, kind: Kind, key: string)
    requires DistinctNames(servers) && DistinctSafe(servers)
    ensures key in Build(servers, kind) <==> exists i :: 0 <= i < |servers| && Offers(servers[i], kind, key)
  {
    if servers != [] {
      var n := |servers| - 1;
      var init, s := servers[..n], servers[n];
      BuildMember(init, kind, key);
      BuildStep(servers, kind);
      assert key in Build(servers, kind) <==> key in Build(init, kind) || Offers(s, kind, key);
      OffersSnoc(servers, kind, key);
    }
  }

  lemma InitDistinct(servers: seq<Server>)
    requires DistinctNames(servers) && DistinctSafe(servers) && servers != []
    ensures DistinctNames(servers[..|servers| - 1]) && DistinctSafe(servers[..|servers| - 1])
  {
  }

  /** A later server that does not offer the name leaves its lookup alone. */
  lemma LookupKept(servers: seq<Server>, kind: Kind, key: string)
    requires servers != [] && DistinctNames(servers) && DistinctSafe(servers)
    requires key in Build(servers[..|servers| - 1], kind) && !Offers(servers[|servers| - 1], kind, key)
    ensures key in Build(servers, kind)
    ensures Build(servers, kind)[key] == Build(servers[..|servers| - 1], kind)[key]
  {
    BuildStep(servers, kind);
  }

  lemma LookupLast(servers: seq<Server>, kind: Kind, key: string)
    requires servers != [] && DistinctNames(servers) && DistinctSafe(servers)
    requires Offers(servers[|servers| - 1], kind, key)
    ensures key in Build(servers, kind)
    ensures var s := servers[|servers| - 1]; Build(servers, kind)[key] == Own(s.name, DefsOf(s.caps, kind))[key]
  {
    BuildStep(servers, kind);
  }

  /** A server's capabilities are looked up exactly as that server alone defines them. */
  lemma {:induction false} LookupExact(servers: seq<Server>, kind: Kind, i: nat, key: string)
    requires DistinctNames(servers) && DistinctSafe(servers) && NoClash(servers, kind)
    requires i < |servers| && Offers(servers[i], kind, key)
    ensures key in Build(servers, kind)
    ensures Build(servers, kind)[key] == Own(servers[i].name, DefsOf(servers[i].caps, kind))[key]
  {
    var n := |servers| - 1;
    if i == n {
      LookupLast(servers, kind, key);
    } else {
      OnlyOneOffers(servers, kind, i, n, key);
      NoClashInit(servers, kind);
      InitDistinct(servers);
      assert servers[..n][i] == servers[i];
      LookupExact(servers[..n], kind, i, key);
      LookupKept(servers, kind, key);
    }
  }

  lemma OnlyOneOffers(servers: seq<Server>, kind: Kind, i: nat, j: nat, key: string)
    requires NoClash(servers, kind) && i < j < |servers| && Offers(servers[i], kind, key)
    ensures !Offers(servers[j], kind, key)
  {
  }

  lemma NoClashInit(servers: seq<Server>, kind: Kind)
    requires servers != [] && NoClash(servers, kind)
    ensures NoClash(servers[..|servers| - 1], kind)
  {
    var init := servers[..|servers| - 1];
    forall a, b, k | 0 <= a < |init| && 0 <= b < |init| && a != b && Offers(init[a], kind, k)
      ensures !Offers(init[b], kind, k)
    {
      assert Offers(servers[a], kind, k);
    }
  }

  lemma BuildOrderFree(a: seq<Server>, b: seq<Server>, kind: Kind)
    requires DistinctNames(a) && DistinctSafe(a) && NoClash(a, kind)
    requires DistinctNames(b) && DistinctSafe(b) && NoClash(b, kind)
    requires forall s :: s in a <==> s in b
    ensures Build(a, kind) == Build(b, kind)
  {
    forall key ensures key in Build(a, kind) ==> key in Build(b, kind) && Build(a, kind)[key] == Build(b, kind)[key] {
      BuildWithin(a, b, kind, key);
    }
    forall key ensures key in Build(b, kind) ==> key in Build(a, kind) {
      BuildWithin(b, a, kind, key);
    }
  }

  lemma BuildWithin(a: seq<Server>, b: seq<Server>, kind: Kind, key: string)
    requires DistinctNames(a) && DistinctSafe(a) && NoClash(a, kind)
    requires DistinctNames(b) && DistinctSafe(b) && NoClash(b, kind)
    requires forall s :: s in a ==> s in b
    ensures key in Build(a, kind) ==> key in Build(b, kind) && Build(a, kind)[key] == Build(b, kind)[key]
  {
    BuildMember(a, kind, key);
    if key in Build(a, kind) {
      var i :| 0 <= i < |a| && Offers(a[i], kind, key);
      assert a[i] in b;
      var j :| 0 <= j < |b| && b[j] == a[i];
      LookupExact(a, kind, i, key);
      LookupExact(b, kind, j, key);
    }
  }

  lemma SameSetUnambiguous(a: seq<Server>, b: seq<Server>)
    requires Unambiguous(a) && DistinctNames(b) && forall s :: s in a <==> s in b
    ensures Unambiguous(b)
  {
    forall i, j | 0 <= i < |b| && 0 <= j < |b| && i != j
      ensures SafeServerId(b[i].name) != SafeServerId(b[j].name)
      ensures forall kind, key :: Offers(b[i], kind, key) ==> !Offers(b[j], kind, key)
    {
      assert b[i] in a && b[j] in a;
      var x, y :| 0 <= x < |a| && a[x] == b[i] && 0 <= y < |a| && a[y] == b[j];
      assert x != y;
      forall kind, key | Offers(b[i], kind, key) ensures !Offers(b[j], kind, key) {
        assert NoClash(a, kind);
      }
    }
  }

  /** Two dicts with the same items in any order give identical tables. */
  lemma SyncOrderFree(a: seq<Server>, b: seq<Server>)
    requires Unambiguous(a) && DistinctNames(b) && forall s :: s in a <==> s in b
    ensures Sync(a) == Sync(b)
  {
    SameSetUnambiguous(a, b);
    BuildOrderFree(a, b, Tools);
    BuildOrderFree(a, b, Resources);
    BuildOrderFree(a, b, Templates);
    BuildOrderFree(a, b, Prompts);
    IdsOrderFree(a, b);
  }

  lemma IdsOrderFree(a: seq<Server>, b: seq<Server>)
    requires DistinctNames(a) && DistinctSafe(a) && DistinctNames(b) && DistinctSafe(b)
    requires forall s :: s in a <==> s in b
    ensures AssignIds(a) == AssignIds(b)
  {
    PlainIds(a);
    PlainIds(b);
    forall k | k in AssignIds(a) ensures k in AssignIds(b) {
      var i :| 0 <= i < |a| && a[i].name == k;
      assert a[i] in b;
    }
    forall k | k in AssignIds(b) ensures k in AssignIds(a) {
      var i :| 0 <= i < |b| && b[i].name == k;
      assert b[i] in a;
    }
  }

  /** Distinct clean ids rule clashes out, whatever the capabilities are called. */
  lemma CleanIdsUnambiguous(servers: seq<Server>)
    requires DistinctNames(servers) && DistinctSafe(servers)
    requires forall i :: 0 <= i < |servers| ==> Clean(SafeServerId(servers[i].name))
    ensures Unambiguous(servers)
  {
    forall kind, i, j, key | 0 <= i < |servers| && 0 <= j < |servers| && i != j && Offers(servers[i], kind, key)
      ensures !Offers(servers[j], kind, key)
    {
      var x, y := servers[i], servers[j];
      var xs, ys := DefsOf(x.caps, kind), DefsOf(y.caps, kind);
      OwnNames(x.name, xs, key);
      OwnNames(y.name, ys, key);
      if Offers(y, kind, key) {
        var m :| 0 <= m < |xs| && NamespaceName(SafeServerId(x.name), xs[m].name) == key;
        var n :| 0 <= n < |ys| && NamespaceName(SafeServerId(y.name), ys[n].name) == key;
        NamespaceInjective(SafeServerId(x.name), xs[m].name, SafeServerId(y.name), ys[n].name);
      }
    }
  }

  // ---------------------------------------------------------------------
  // Exactly when the order matters
  // ---------------------------------------------------------------------

  /** The same dict items in another order. */
  ghost predicate Reordered(a: seq<Server>, b: seq<Server>) {
    DistinctNames(b) && forall s :: s in a <==> s in b
  }

  function Rest(a: seq<Server>, i: nat, j: nat): seq<Server>
    requires i < j < |a|
  {
    a[..i] + a[i + 1..j] + a[j + 1..]
  }

  lemma RestMembers(a: seq<Server>, i: nat, j: nat, s: Server)
    requires DistinctNames(a) && i < j < |a|
    ensures s in Rest(a, i, j) <==> s in a && s.name != a[i].name && s.name != a[j].name
  {
    if s in a && s.name != a[i].name && s.name != a[j].name {
      var k :| 0 <= k < |a| && a[k] == s;
      assert Rest(a, i, j)[if k < i then k else if k < j then k - 1 else k - 2] == s;
    }
  }

  /** Two servers of a dict moved to the front, or to the end, in the given order. */
  lemma Moved(a: seq<Server>, i: nat, j: nat, x: Server, y: Server)
    requires DistinctNames(a) && i < j < |a| && ((x == a[i] && y == a[j]) || (x == a[j] && y == a[i]))
    ensures Reordered(a, [x, y] + Rest(a, i, j)) && Reordered(a, Rest(a, i, j) + [x, y])
  {
    var rest := Rest(a, i, j);
    assert DistinctNames(rest);
    forall k | 0 <= k < |rest| ensures rest[k].name != x.name && rest[k].name != y.name {
      RestMembers(a, i, j, rest[k]);
    }
    forall s ensures s in a <==> s in rest || s == x || s == y {
      RestMembers(a, i, j, s);
      if s in a && (s.name == a[i].name || s.name == a[j].name) {
        var k :| 0 <= k < |a| && a[k] == s;
      }
    }
    PairFirst(x, y, rest);
    PairLast(x, y, rest);
  }

  lemma PairFirst(x: Server, y: Server, rest: seq<Server>)
    requires DistinctNames(rest) && x.name != y.name
    requires forall k :: 0 <= k < |rest| ==> rest[k].name != x.name && rest[k].name != y.name
    ensures DistinctNames([x, y] + rest) && forall s :: s in [x, y] + rest <==> s in rest || s == x || s == y
  {
    var b := [x, y] + rest;
    assert b[0] == x && b[1] == y;
  }

  lemma PairLast(x: Server, y: Server, rest: seq<Server>)
    requires DistinctNames(rest) && x.name != y.name
    requires forall k :: 0 <= k < |rest| ==> rest[k].name != x.name && rest[k].name != y.name
    ensures DistinctNames(rest + [x, y]) && forall s :: s in rest + [x, y] <==> s in rest || s == x || s == y
  {
    var b := rest + [x, y];
    assert b[|rest|] == x && b[|rest| + 1] == y;
  }

  /** The first server of a dict gets its plain id. */
  lemma {:induction false} FirstGetsPlainId(servers: seq<Server>)
    requires DistinctNames(servers) && servers != []
    ensures AssignIds(servers)[servers[0].name] == SafeServerId(servers[0].name)
  {
    var n := |servers| - 1;
    assert servers[..n + 1] == servers;
    NextId(servers, n);
    if n == 0 {
      assert servers[..0] == [];
    } else {
      FirstGetsPlainId(servers[..n]);
      assert servers[..n][0].name in AssignIds(servers[..n]);
    }
  }

  /** Of two servers with one sanitised name, whichever comes first gets the plain id. */
  lemma SharedIdMatters(x: Server, y: Server, rest: seq<Server>)
    requires DistinctNames([x, y] + rest) && DistinctNames([y, x] + rest)
    requires SafeServerId(x.name) == SafeServerId(y.name)
    ensures Sync([x, y] + rest) != Sync([y, x] + rest)
  {
    var a, b := [x, y] + rest, [y, x] + rest;
    FirstGetsPlainId(a);
    FirstGetsPlainId(b);
    IdsAreDistinct(b, 0, 1);
    assert a[0] == x && b[0] == y && b[1] == x;
    assert AssignIds(a)[x.name] != AssignIds(b)[x.name];
  }

  /** Of two servers with one capability name, whichever comes last is looked up. */
  lemma LastIsLookedUp(servers: seq<Server>, kind: Kind, key: string)
    requires DistinctNames(servers) && DistinctSafe(servers)
    requires servers != [] && Offers(servers[|servers| - 1], kind, key)
    ensures key in Build(servers, kind) && Build(servers, kind)[key].server == servers[|servers| - 1].name
  {
    var s := servers[|servers| - 1];
    LookupLast(servers, kind, key);
    OwnNames(s.name, DefsOf(s.caps, kind), key);
  }

  lemma SharedKeyMatters(x: Server, y: Server, rest: seq<Server>, kind: Kind, key: string)
    requires DistinctNames(rest + [x, y]) && DistinctNames(rest + [y, x])
    requires DistinctSafe(rest + [x, y]) && DistinctSafe(rest + [y, x])
    requires Offers(x, kind, key) && Offers(y, kind, key)
    ensures Sync(rest + [x, y]) != Sync(rest + [y, x])
  {
    var a, b, n := rest + [x, y], rest + [y, x], |rest|;
    assert a[n] == x && a[n + 1] == y && b[n + 1] == x;
    LastIsLookedUp(a, kind, key);
    LastIsLookedUp(b, kind, key);
    assert Build(a, kind)[key].server != Build(b, kind)[key].server;
    TablesDecideBuild(a, b, kind);
  }

  lemma TablesDecideBuild(a: seq<Server>, b: seq<Server>, kind: Kind)
    ensures Sync(a) == Sync(b) ==> Build(a, kind) == Build(b, kind)
  {
    match kind
    case Tools =>
    case Resources =>
    case Templates =>
    case Prompts =>
  }

  lemma ReorderedSafe(a: seq<Server>, b: seq<Server>)
    requires DistinctSafe(a) && Reordered(a, b)
    ensures DistinctSafe(b)
  {
    forall i, j | 0 <= i < j < |b| ensures SafeServerId(b[i].name) != SafeServerId(b[j].name) {
      assert b[i] in a && b[j] in a;
      var x, y :| 0 <= x < |a| && a[x] == b[i] && 0 <= y < |a| && a[y] == b[j];
      assert x != y;
    }
  }

  /** An ambiguous dict has two orders with different tables, so one of them differs from its own. */
  lemma AmbiguousOrder(a: seq<Server>) returns (b: seq<Server>)
    requires DistinctNames(a) && !Unambiguous(a)
    ensures Reordered(a, b) && Sync(b) != Sync(a)
  {
    var c, d;
    if !DistinctSafe(a) {
      var i, j :| 0 <= i < j < |a| && SafeServerId(a[i].name) == SafeServerId(a[j].name);
      c, d := [a[i], a[j]] + Rest(a, i, j), [a[j], a[i]] + Rest(a, i, j);
      Moved(a, i, j, a[i], a[j]);
      Moved(a, i, j, a[j], a[i]);
      SharedIdMatters(a[i], a[j], Rest(a, i, j));
    } else {
      var kind :| !NoClash(a, kind);
      var i, j, key := Clash(a, kind);
      c, d := Rest(a, i, j) + [a[i], a[j]], Rest(a, i, j) + [a[j], a[i]];
      Moved(a, i, j, a[i], a[j]);
      Moved(a, i, j, a[j], a[i]);
      ReorderedSafe(a, c);
      ReorderedSafe(a, d);
      SharedKeyMatters(a[i], a[j], Rest(a, i, j), kind, key);
    }
    b := if Sync(c) != Sync(a) then c else d;
  }

  lemma Clash(a: seq<Server>, kind: Kind) returns (i: nat, j: nat, key: string)
    requires !NoClash(a, kind)
    ensures i < j < |a| && Offers(a[i], kind, key) && Offers(a[j], kind, key)
  {
    i, j, key :| i < |a| && j < |a| && i != j && Offers(a[i], kind, key) && Offers(a[j], kind, key);
    if j < i {
      i, j := j, i;
    }
  }

  /** The tables are the same in every dict order exactly when the sanitised names
      differ and no two servers produce the same capability name. */
  lemma OrderFreeIff(a: seq<Server>)
    requires DistinctNames(a)
    ensures (forall b :: Reordered(a, b) ==> Sync(b) == Sync(a)) <==> Unambiguous(a)
  {
    if Unambiguous(a) {
      forall b | Reordered(a, b) ensures Sync(b) == Sync(a) {
        SyncOrderFree(a, b);
      }
    } else {
      var b := AmbiguousOrder(a);
    }
  }

  /** Without distinct sanitised names the order does matter: the later server gets the suffix. */
  lemma OrderCanMatter()
    ensures var a, b := Server("x-y", NO_CAPS), Server("x.y", NO_CAPS);
            Sync([a, b]).ids != Sync([b, a]).ids
  {
    var a, b := Server("x-y", NO_CAPS), Server("x.y", NO_CAPS);
    assert SafeServerId("x-y") == "x_y" && SafeServerId("x.y") == "x_y";
    assert [a, b][..1] == [a] && [b, a][..1] == [b];
    assert [a][..0] == [] && [b][..0] == [];
    assert AssignIds([a]) == map["x-y" := "x_y"];
    assert AssignIds([b]) == map["x.y" := "x_y"];
    assert AssignIds([a, b])["x-y"] == "x_y";
    assert AssignIds([a]).Values == {"x_y"} && AssignIds([b]).Values == {"x_y"};
    assert AssignIds([b, a])["x-y"] != "x_y";
  }
}
