/**
 Hot reload: diff two configurations by server name and fingerprint, then apply
 the removals, the modifications and the additions to the live manager.
 The fingerprint hash is taken to be injective, so it is modelled by the hashed
 fields themselves; each connect attempt ends as an oracle decides.
 */
module Reload {
  import opened Prelude
  import opened OrderedDict
  import opened Registry
  import opened Manager

  type Config = seq<ServerConfig>

  function Fingerprint(s: ServerConfig): Hashed {
    s.hashed
  }

  /** `{s.name: s for s in servers}`. */
  function ByName(config: Config): Dict<ServerConfig> {
    if config == [] then []
    else Put(ByName(config[..|config| - 1]), config[|config| - 1].name, config[|config| - 1])
  }

  function Indexed(config: Config): map<string, ServerConfig> {
    ToMap(ByName(config))
  }

  datatype Diff = Diff(added: seq<ServerConfig>, removed: seq<string>, modified: seq<ServerConfig>, same: seq<string>) {
    predicate IsEmpty() {
      added == [] && removed == [] && modified == []
    }
  }

  datatype Change = Added | Removed | Modified | Unchanged | Ignored

  /** How one name of the new configuration is classified. */
  function Classify(old_: Option<ServerConfig>, new_: ServerConfig): Change {
    if !new_.hashed.enabled then (if old_.Some? && old_.value.hashed.enabled then Removed else Ignored)
    else if old_.None? || !old_.value.hashed.enabled then Added
    else if Fingerprint(old_.value) != Fingerprint(new_) then Modified
    else Unchanged
  }

  function Entry(d: Dict<ServerConfig>, name: string): Option<ServerConfig> {
    if Has(d, name) then Some(Get(d, name)) else None
  }

  /** First loop: the names of the new configuration. */
  function DiffNew(olds: Dict<ServerConfig>, news: Dict<ServerConfig>): Diff {
    if news == [] then Diff([], [], [], [])
    else
      var n := |news| - 1;
      var d := DiffNew(olds, news[..n]);
      var (name, s) := news[n];
      Filed(d, name, s, Classify(Entry(olds, name), s))
  }

  function Filed(d: Diff, name: string, s: ServerConfig, c: Change): Diff {
    match c
    case Added => d.(added := d.added + [s])
    case Removed => d.(removed := d.removed + [name])
    case Modified => d.(modified := d.modified + [s])
    case Unchanged => d.(same := d.same + [name])
    case Ignored => d
  }

  /** Second loop: enabled old servers that the new configuration no longer names. */
  function Gone(olds: Dict<ServerConfig>, news: Dict<ServerConfig>): seq<string> {
    if olds == [] then []
    else
      var n := |olds| - 1;
      var names := Gone(olds[..n], news);
      if !Has(news, olds[n].0) && olds[n].1.hashed.enabled then names + [olds[n].0] else names
  }

  function DiffConfigs(old_: Config, new_: Config): Diff {
    var olds, news := ByName(old_), ByName(new_);
    var d := DiffNew(olds, news);
    d.(removed := d.removed + Gone(olds, news))
  }

  /** `diff_configs`. */
  method ComputeDiff(old_: Config, new_: Config) returns (d: Diff)
    ensures d == DiffConfigs(old_, new_)
  {
    var olds, news := ByName(old_), ByName(new_);
    d := ScanNew(olds, news);
    var gone := ScanGone(olds, news);
    d := d.(removed := d.removed + gone);
  }

  method ScanNew(olds: Dict<ServerConfig>, news: Dict<ServerConfig>) returns (d: Diff)
    ensures d == DiffNew(olds, news)
  {
    d := Diff([], [], [], []);
    for i := 0 to |news|
      invariant d == DiffNew(olds, news[..i])
    {
      assert news[..i + 1][..i] == news[..i];
      d := FileServer(d, Entry(olds, news[i].0), news[i].0, news[i].1);
    }
    assert news[..|news|] == news;
  }

  /** One pass of the first loop. */
  method FileServer(d: Diff, before: Option<ServerConfig>, name: string, s: ServerConfig) returns (r: Diff)
    ensures r == Filed(d, name, s, Classify(before, s))
  {
    r := d;
    if !s.hashed.enabled {
      if before.Some? && before.value.hashed.enabled {
        r := d.(removed := d.removed + [name]);
      }
    } else if before.None? || !before.value.hashed.enabled {
      r := d.(added := d.added + [s]);
    } else if Fingerprint(before.value) != Fingerprint(s) {
      r := d.(modified := d.modified + [s]);
    } else {
      r := d.(same := d.same + [name]);
    }
  }

  method ScanGone(olds: Dict<ServerConfig>, news: Dict<ServerConfig>) returns (gone: seq<string>)
    ensures gone == Gone(olds, news)
  {
    gone := [];
    for i := 0 to |olds|
      invariant gone == Gone(olds[..i], news)
    {
      assert olds[..i + 1][..i] == olds[..i];
      if !Has(news, olds[i].0) && olds[i].1.hashed.enabled {
        gone := gone + [olds[i].0];
      }
    }
    assert olds[..|olds|] == olds;
  }

  // ---------------------------------------------------------------------
  // What the diff says
  // ---------------------------------------------------------------------

  lemma {:induction false} ByNameFacts(config: Config)
    ensures Distinct(ByName(config))
    ensures forall k :: k in Indexed(config) ==> Indexed(config)[k].name == k
  {
    if config != [] {
      var n := |config| - 1;
      ByNameFacts(config[..n]);
      PutMap(ByName(config[..n]), config[n].name, config[n]);
      assert Indexed(config) == Indexed(config[..n])[config[n].name := config[n]];
    }
  }

  ghost function ServerAt(config: Config, name: string): Option<ServerConfig> {
    if name in Indexed(config) then Some(Indexed(config)[name]) else None
  }

  /** The classification of a name by both configurations. */
  ghost function ChangeOf(old_: Config, new_: Config, name: string): Change {
    var o, n := ServerAt(old_, name), ServerAt(new_, name);
    if n.Some? then Classify(o, n.value)
    else if o.Some? && o.value.hashed.enabled then Removed
    else Ignored
  }

  lemma EntryIsLookup(config: Config, name: string)
    ensures Entry(ByName(config), name) == ServerAt(config, name)
  {
    Lookup(ByName(config), name);
  }

  ghost predicate WellNamed(d: Dict<ServerConfig>) {
    Distinct(d) && forall i :: 0 <= i < |d| ==> d[i].1.name == d[i].0
  }

  lemma ByNameWellNamed(config: Config)
    ensures WellNamed(ByName(config))
  {
    ByNameFacts(config);
    var d := ByName(config);
    forall i | 0 <= i < |d| ensures d[i].1.name == d[i].0 {
      Item(d, i);
    }
  }

  ghost predicate Marks(olds: Dict<ServerConfig>, news: Dict<ServerConfig>, k: string, c: Change) {
    Has(news, k) && Classify(Entry(olds, k), Get(news, k)) == c
  }

  ghost predicate DistinctServers(xs: seq<ServerConfig>) {
    forall i, j :: 0 <= i < j < |xs| ==> xs[i].name != xs[j].name
  }

  /** `xs` lists the servers of the new dict classified as `c`. */
  ghost predicate ServersAre(olds: Dict<ServerConfig>, news: Dict<ServerConfig>, xs: seq<ServerConfig>, c: Change) {
    (forall s :: s in xs <==> Marks(olds, news, s.name, c) && Get(news, s.name) == s) && DistinctServers(xs)
  }

  ghost predicate NamesAre(olds: Dict<ServerConfig>, news: Dict<ServerConfig>, ks: seq<string>, c: Change) {
    forall k :: k in ks <==> Marks(olds, news, k, c)
  }

  ghost predicate Collected(olds: Dict<ServerConfig>, news: Dict<ServerConfig>, d: Diff) {
    && ServersAre(olds, news, d.added, Added) && ServersAre(olds, news, d.modified, Modified)
    && NamesAre(olds, news, d.removed, Removed) && NamesAre(olds, news, d.same, Unchanged)
  }

  lemma AppendItem(news: Dict<ServerConfig>, k: string)
    requires WellNamed(news) && news != []
    ensures var n := |news| - 1;
            && WellNamed(news[..n]) && !Has(news[..n], news[n].0)
            && (Has(news, k) <==> Has(news[..n], k) || k == news[n].0)
            && (k == news[n].0 ==> Get(news, k) == news[n].1)
            && (Has(news[..n], k) ==> Get(news, k) == Get(news[..n], k))
  {
    var n := |news| - 1;
    var init := news[..n];
    Unique(news, n);
    if Has(news, k) && k != news[n].0 {
      assert init[Find(news, k)].0 == k;
    }
    if Has(init, k) {
      assert news[Find(init, k)].0 == k;
      Unique(news, Find(init, k));
    }
  }

  lemma {:induction false} DiffNewCollects(olds: Dict<ServerConfig>, news: Dict<ServerConfig>)
    requires WellNamed(news)
    ensures Collected(olds, news, DiffNew(olds, news))
  {
    if news != [] {
      var n := |news| - 1;
      AppendItem(news, "");
      DiffNewCollects(olds, news[..n]);
      CollectOne(olds, news, DiffNew(olds, news[..n]));
    }
  }

  lemma MarksStep(olds: Dict<ServerConfig>, news: Dict<ServerConfig>, k: string, c: Change)
    requires WellNamed(news) && news != []
    ensures var n := |news| - 1;
            Marks(olds, news, k, c) <==>
              if k == news[n].0 then Classify(Entry(olds, k), news[n].1) == c else Marks(olds, news[..n], k, c)
  {
    AppendItem(news, k);
  }

  lemma ServersStep(olds: Dict<ServerConfig>, news: Dict<ServerConfig>, xs: seq<ServerConfig>, c: Change)
    requires WellNamed(news) && news != [] && ServersAre(olds, news[..|news| - 1], xs, c)
    ensures var n := |news| - 1;
            ServersAre(olds, news, if Classify(Entry(olds, news[n].0), news[n].1) == c then xs + [news[n].1] else xs, c)
  {
    var n := |news| - 1;
    var ys := if Classify(Entry(olds, news[n].0), news[n].1) == c then xs + [news[n].1] else xs;
    forall s ensures s in ys <==> Marks(olds, news, s.name, c) && Get(news, s.name) == s {
      MarksStep(olds, news, s.name, c);
      AppendItem(news, s.name);
    }
    forall x | x in xs ensures x.name != news[n].0 {
      AppendItem(news, x.name);
    }
  }

  lemma NamesStep(olds: Dict<ServerConfig>, news: Dict<ServerConfig>, ks: seq<string>, c: Change)
    requires WellNamed(news) && news != [] && NamesAre(olds, news[..|news| - 1], ks, c)
    ensures var n := |news| - 1;
            NamesAre(olds, news, if Classify(Entry(olds, news[n].0), news[n].1) == c then ks + [news[n].0] else ks, c)
  {
    var n := |news| - 1;
    forall k ensures Marks(olds, news, k, c) <==>
        if k == news[n].0 then Classify(Entry(olds, k), news[n].1) == c else Marks(olds, news[..n], k, c)
    {
      MarksStep(olds, news, k, c);
    }
    AppendItem(news, news[n].0);
  }

  lemma CollectOne(olds: Dict<ServerConfig>, news: Dict<ServerConfig>, d: Diff)
    requires WellNamed(news) && news != [] && d == DiffNew(olds, news[..|news| - 1])
    requires Collected(olds, news[..|news| - 1], d)
    ensures Collected(olds, news, DiffNew(olds, news))
  {
    ServersStep(olds, news, d.added, Added);
    ServersStep(olds, news, d.modified, Modified);
    NamesStep(olds, news, d.removed, Removed);
    NamesStep(olds, news, d.same, Unchanged);
  }

  lemma {:induction false} GoneFacts(olds: Dict<ServerConfig>, news: Dict<ServerConfig>)
    requires WellNamed(olds)
    ensures forall k :: k in Gone(olds, news) <==> Has(olds, k) && !Has(news, k) && Get(olds, k).hashed.enabled
  {
    if olds != [] {
      var n := |olds| - 1;
      AppendItem(olds, "");
      GoneFacts(olds[..n], news);
      forall k ensures k in Gone(olds, news) <==> Has(olds, k) && !Has(news, k) && Get(olds, k).hashed.enabled {
        AppendItem(olds, k);
      }
    }
  }

  /** `xs` lists, once each, the new servers with this classification. */
  ghost predicate ListsServers(old_: Config, new_: Config, xs: seq<ServerConfig>, c: Change) {
    && DistinctServers(xs)
    && forall s :: s in xs <==> ChangeOf(old_, new_, s.name) == c && ServerAt(new_, s.name) == Some(s)
  }

  ghost predicate ListsNames(old_: Config, new_: Config, ks: seq<string>, c: Change) {
    forall k :: k in ks <==> ChangeOf(old_, new_, k) == c
  }

  lemma MarksMean(old_: Config, new_: Config, k: string, c: Change)
    ensures Marks(ByName(old_), ByName(new_), k, c) <==> ServerAt(new_, k).Some? && ChangeOf(old_, new_, k) == c
    ensures Has(ByName(new_), k) <==> ServerAt(new_, k).Some?
    ensures Has(ByName(new_), k) ==> ServerAt(new_, k) == Some(Get(ByName(new_), k))
  {
    EntryIsLookup(old_, k);
    EntryIsLookup(new_, k);
  }

  lemma ServersListed(old_: Config, new_: Config, xs: seq<ServerConfig>, c: Change)
    requires ServersAre(ByName(old_), ByName(new_), xs, c)
    ensures ListsServers(old_, new_, xs, c)
  {
    forall s ensures s in xs <==> ChangeOf(old_, new_, s.name) == c && ServerAt(new_, s.name) == Some(s) {
      MarksMean(old_, new_, s.name, c);
    }
  }

  lemma RemovedListed(old_: Config, new_: Config, ks: seq<string>, gone: seq<string>)
    requires NamesAre(ByName(old_), ByName(new_), ks, Removed) && gone == Gone(ByName(old_), ByName(new_))
    ensures ListsNames(old_, new_, ks + gone, Removed)
  {
    ByNameWellNamed(old_);
    GoneFacts(ByName(old_), ByName(new_));
    forall k ensures k in ks + gone <==> ChangeOf(old_, new_, k) == Removed {
      MarksMean(old_, new_, k, Removed);
      EntryIsLookup(old_, k);
    }
  }

  lemma SameListed(old_: Config, new_: Config, ks: seq<string>)
    requires NamesAre(ByName(old_), ByName(new_), ks, Unchanged)
    ensures ListsNames(old_, new_, ks, Unchanged)
  {
    forall k ensures k in ks <==> ChangeOf(old_, new_, k) == Unchanged {
      MarksMean(old_, new_, k, Unchanged);
    }
  }

  /** The four lists are exactly the names of each classification. */
  lemma DiffFacts(old_: Config, new_: Config)
    ensures var d := DiffConfigs(old_, new_);
            && ListsServers(old_, new_, d.added, Added) && ListsServers(old_, new_, d.modified, Modified)
            && ListsNames(old_, new_, d.removed, Removed) && ListsNames(old_, new_, d.same, Unchanged)
  {
    var olds, news := ByName(old_), ByName(new_);
    ByNameWellNamed(new_);
    DiffNewCollects(olds, news);
    var d := DiffNew(olds, news);
    ServersListed(old_, new_, d.added, Added);
    ServersListed(old_, new_, d.modified, Modified);
    RemovedListed(old_, new_, d.removed, Gone(olds, news));
    SameListed(old_, new_, d.same);
  }

  /** The enabled servers and their fingerprints: all that a diff looks at. */
  ghost function Effective(config: Config): map<string, Hashed> {
    map k | k in Indexed(config) && Indexed(config)[k].hashed.enabled :: Fingerprint(Indexed(config)[k])
  }

  /** A diff is empty exactly when both configurations run the same servers with the same fingerprints. */
  lemma EmptyDiffIff(old_: Config, new_: Config)
    ensures DiffConfigs(old_, new_).IsEmpty() <==> Effective(old_) == Effective(new_)
  {
    var d := DiffConfigs(old_, new_);
    DiffFacts(old_, new_);
    ByNameFacts(old_);
    ByNameFacts(new_);
    if d.IsEmpty() {
      forall k ensures k in Effective(old_) <==> k in Effective(new_)
        ensures k in Effective(old_) ==> Effective(old_)[k] == Effective(new_)[k]
      {
        EmptyMeansSettled(old_, new_, k);
      }
    } else if Effective(old_) == Effective(new_) {
      if d.removed != [] {
        assert d.removed[0] in d.removed;
        SettledMeans(old_, new_, d.removed[0]);
      } else if d.added != [] {
        assert d.added[0] in d.added;
        SettledMeans(old_, new_, d.added[0].name);
      } else {
        assert d.modified[0] in d.modified;
        SettledMeans(old_, new_, d.modified[0].name);
      }
    }
  }

  ghost predicate Settled(c: Change) {
    c == Unchanged || c == Ignored
  }

  lemma EmptyMeansSettled(old_: Config, new_: Config, k: string)
    requires DiffConfigs(old_, new_).IsEmpty()
    ensures Settled(ChangeOf(old_, new_, k))
    ensures k in Effective(old_) <==> k in Effective(new_)
    ensures k in Effective(old_) ==> Effective(old_)[k] == Effective(new_)[k]
  {
    DiffFacts(old_, new_);
    ByNameFacts(new_);
    var n := ServerAt(new_, k);
    if n.Some? {
      assert n.value !in DiffConfigs(old_, new_).added && n.value !in DiffConfigs(old_, new_).modified;
    }
    assert k !in DiffConfigs(old_, new_).removed;
  }

  lemma SettledMeans(old_: Config, new_: Config, k: string)
    requires Effective(old_) == Effective(new_)
    ensures Settled(ChangeOf(old_, new_, k))
  {
    assert k in Effective(old_) <==> k in Effective(new_);
  }

  // ---------------------------------------------------------------------
  // Applying a diff
  // ---------------------------------------------------------------------

  function RemoveAll(m: Manager.State, names: seq<string>): Manager.State {
    if names == [] then m else RemoveServer(RemoveAll(m, names[..|names| - 1]), names[|names| - 1])
  }

  function ReplaceAll(m: Manager.State, xs: seq<ServerConfig>, o: string -> Outcome, now: real): Manager.State {
    if xs == [] then m
    else
      var s := xs[|xs| - 1];
      ReplaceServer(ReplaceAll(m, xs[..|xs| - 1], o, now), s, o(s.name), now)
  }

  function AddEach(m: Manager.State, xs: seq<ServerConfig>, o: string -> Outcome, now: real): Manager.State {
    if xs == [] then m
    else
      var s := xs[|xs| - 1];
      AddServer(AddEach(m, xs[..|xs| - 1], o, now), s, o(s.name), now)
  }

  /** Removals, then modifications, then additions. */
  function ApplyConfig(m: Manager.State, new_: Config, o: string -> Outcome, now: real): Manager.State {
    var d := DiffConfigs(m.config, new_);
    if d.IsEmpty() then m
    else AddEach(ReplaceAll(RemoveAll(m, d.removed), d.modified, o, now), d.added, o, now)
  }

  // --- The effect of each manager call on one name ----------------------

  function ConnAt(m: Manager.State, name: string): Option<Conn> {
    if Has(m.conns, name) then Some(Get(m.conns, name)) else None
  }

  ghost predicate SameAt(a: Manager.State, b: Manager.State, name: string) {
    ServerAt(a.config, name) == ServerAt(b.config, name) && ConnAt(a, name) == ConnAt(b, name)
  }

  lemma IndexSnoc(config: Config, s: ServerConfig)
    ensures Indexed(config + [s]) == Indexed(config)[s.name := s]
  {
    assert (config + [s])[..|config|] == config;
    ByNameFacts(config);
    PutMap(ByName(config), s.name, s);
  }

  lemma {:induction false} IndexWithout(config: Config, name: string)
    ensures Indexed(WithoutServer(config, name)) == Indexed(config) - {name}
  {
    if config != [] {
      var n := |config| - 1;
      var init, s := config[..n], config[n];
      IndexWithout(init, name);
      assert Indexed(config) == Indexed(init)[s.name := s] by {
        assert init + [s] == config;
        IndexSnoc(init, s);
      }
      UpdateWithout(Indexed(init), s.name, s, name);
      if s.name != name {
        IndexSnoc(WithoutServer(init, name), s);
      }
    }
  }

  lemma UpdateWithout(index: map<string, ServerConfig>, k: string, s: ServerConfig, name: string)
    ensures index[k := s] - {name} == if k == name then index - {name} else (index - {name})[k := s]
  {
  }

  lemma {:induction false} ConfiguredIff(config: Config, name: string)
    ensures Configured(config, name) <==> name in Indexed(config)
  {
    if config != [] {
      var n := |config| - 1;
      var init, x := config[..n], config[n];
      ConfiguredIff(init, name);
      assert init + [x] == config;
      IndexSnoc(init, x);
      if Configured(init, name) {
        var i :| 0 <= i < |init| && init[i].name == name;
        assert config[i].name == name;
      }
      assert Configured(config, name) ==> x.name == name || Configured(init, name);
    }
  }

  lemma {:induction false} IndexWith(config: Config, s: ServerConfig)
    ensures Indexed(WithServer(config, s)) ==
            if s.name in Indexed(config) then Indexed(config)[s.name := s] else Indexed(config)
  {
    if config != [] {
      var n := |config| - 1;
      var init, x := config[..n], config[n];
      IndexWith(init, s);
      assert init + [x] == config;
      IndexSnoc(init, x);
      var y := if x.name == s.name then s else x;
      assert WithServer(config, s) == WithServer(init, s) + [y];
      IndexSnoc(WithServer(init, s), y);
      UpdateTwice(Indexed(init), x.name, x, s.name, s);
    }
  }

  lemma UpdateTwice(index: map<string, ServerConfig>, a: string, x: ServerConfig, b: string, y: ServerConfig)
    ensures a != b ==> index[a := x][b := y] == index[b := y][a := x]
    ensures a == b ==> index[a := x][b := y] == index[b := y] == index[b := y][b := y]
  {
  }

  lemma ConnectAt(m: Manager.State, name: string, o: Outcome, now: real, n: string)
    requires Ok(m)
    ensures Ok(Connect(m, name, o, now)) && Connect(m, name, o, now).config == m.config
    ensures n != name ==> ConnAt(Connect(m, name, o, now), n) == ConnAt(m, n)
  {
    var c := Conn(m.nextId, false, NO_CAPS);
    PutMap(m.conns, name, c);
    PutHas(m.conns, name, c);
    DelMap(m.evicted, name);
    Lookup(m.conns, n);
    Lookup(Put(m.conns, name, c), n);
    if o.Up? {
      var up := c.(connected := true, caps := o.caps);
      PutMap(Put(m.conns, name, c), name, up);
      Lookup(Put(Put(m.conns, name, c), name, up), n);
    }
  }

  lemma AddAt(m: Manager.State, s: ServerConfig, o: Outcome, now: real, n: string)
    requires Ok(m)
    ensures Ok(AddServer(m, s, o, now))
    ensures n != s.name ==> SameAt(AddServer(m, s, o, now), m, n)
    ensures ServerAt(AddServer(m, s, o, now).config, s.name) ==
            if Connected(m, s.name) || s.name in Indexed(m.config) then ServerAt(m.config, s.name) else Some(s)
  {
    ConfiguredIff(m.config, s.name);
    IndexSnoc(m.config, s);
    ConnectAt(m, s.name, o, now, n);
    ConnectAt(m.(config := m.config + [s]), s.name, o, now, n);
  }

  lemma RemoveAt(m: Manager.State, name: string, n: string)
    requires Ok(m)
    ensures Ok(RemoveServer(m, name)) && ConnAt(RemoveServer(m, name), name) == None
    ensures n != name ==> SameAt(RemoveServer(m, name), m, n)
    ensures ServerAt(RemoveServer(m, name).config, name) ==
            if Has(m.conns, name) then None else ServerAt(m.config, name)
  {
    IndexWithout(m.config, name);
    DelMap(m.conns, name);
    DelMap(m.evicted, name);
    Lookup(m.conns, n);
    Lookup(Del(m.conns, name), n);
    Lookup(Del(m.conns, name), name);
  }

  lemma ReplaceAt(m: Manager.State, s: ServerConfig, o: Outcome, now: real, n: string)
    requires Ok(m)
    ensures Ok(ReplaceServer(m, s, o, now))
    ensures n != s.name ==> SameAt(ReplaceServer(m, s, o, now), m, n)
    ensures ServerAt(ReplaceServer(m, s, o, now).config, s.name) ==
            if Has(m.conns, s.name) || s.name !in Indexed(m.config) then Some(s) else ServerAt(m.config, s.name)
  {
    if Has(m.conns, s.name) {
      var m1 := Popped(m, s);
      IndexWith(m.config, s);
      DelMap(m.conns, s.name);
      Lookup(m.conns, n);
      Lookup(Del(m.conns, s.name), n);
      Lookup(Del(m.conns, s.name), s.name);
      AddAt(m1, s, o, now, n);
    } else {
      AddAt(m, s, o, now, n);
    }
  }

  // --- The effect of each phase on one name ------------------------------

  ghost predicate NamedIn(xs: seq<ServerConfig>, n: string) {
    exists i :: 0 <= i < |xs| && xs[i].name == n
  }

  ghost function ByNameIn(xs: seq<ServerConfig>, n: string): (s: ServerConfig)
    requires NamedIn(xs, n)
    ensures s in xs && s.name == n
  {
    var i :| 0 <= i < |xs| && xs[i].name == n;
    xs[i]
  }

  lemma OnlyOneNamed(xs: seq<ServerConfig>, n: string, s: ServerConfig)
    requires DistinctServers(xs) && s in xs && s.name == n
    ensures NamedIn(xs, n) && ByNameIn(xs, n) == s
  {
  }

  lemma NamedSnoc(xs: seq<ServerConfig>, n: string)
    requires xs != [] && DistinctServers(xs)
    ensures var k := |xs| - 1;
            && DistinctServers(xs[..k])
            && (NamedIn(xs, n) <==> NamedIn(xs[..k], n) || xs[k].name == n)
            && (xs[k].name == n ==> !NamedIn(xs[..k], n) && ByNameIn(xs, n) == xs[k])
            && (NamedIn(xs[..k], n) ==> ByNameIn(xs, n) == ByNameIn(xs[..k], n))
  {
    var k := |xs| - 1;
    if xs[k].name == n {
      OnlyOneNamed(xs, n, xs[k]);
    }
    if NamedIn(xs[..k], n) {
      OnlyOneNamed(xs, n, ByNameIn(xs[..k], n));
    }
  }

  lemma {:induction false} RemoveAllAt(m: Manager.State, names: seq<string>, n: string)
    requires Ok(m)
    ensures Ok(RemoveAll(m, names))
    ensures n !in names ==> SameAt(RemoveAll(m, names), m, n)
    ensures n in names ==> ConnAt(RemoveAll(m, names), n) == None
    ensures n in names && Has(m.conns, n) ==> ServerAt(RemoveAll(m, names).config, n) == None
    ensures n in names && !Has(m.conns, n) ==> ServerAt(RemoveAll(m, names).config, n) == ServerAt(m.config, n)
  {
    if names != [] {
      var k := |names| - 1;
      assert names == names[..k] + [names[k]];
      RemoveAllAt(m, names[..k], n);
      RemoveAt(RemoveAll(m, names[..k]), names[k], n);
    }
  }

  lemma {:induction false} ReplaceAllAt(m: Manager.State, xs: seq<ServerConfig>, o: string -> Outcome, now: real,
                                        n: string)
    requires Ok(m) && DistinctServers(xs)
    ensures Ok(ReplaceAll(m, xs, o, now))
    ensures !NamedIn(xs, n) ==> SameAt(ReplaceAll(m, xs, o, now), m, n)
    ensures NamedIn(xs, n) ==>
              ServerAt(ReplaceAll(m, xs, o, now).config, n) ==
              if Has(m.conns, n) || n !in Indexed(m.config) then Some(ByNameIn(xs, n)) else ServerAt(m.config, n)
  {
    if xs != [] {
      var k := |xs| - 1;
      var init := xs[..k];
      ReplaceAllAt(m, init, o, now, n);
      NamedSnoc(xs, n);
      ReplaceAt(ReplaceAll(m, init, o, now), xs[k], o(xs[k].name), now, n);
    }
  }

  lemma {:induction false} AddEachAt(m: Manager.State, xs: seq<ServerConfig>, o: string -> Outcome, now: real,
                                     n: string)
    requires Ok(m) && DistinctServers(xs)
    ensures Ok(AddEach(m, xs, o, now))
    ensures !NamedIn(xs, n) ==> SameAt(AddEach(m, xs, o, now), m, n)
    ensures NamedIn(xs, n) ==>
              ServerAt(AddEach(m, xs, o, now).config, n) ==
              if Connected(m, n) || n in Indexed(m.config) then ServerAt(m.config, n) else Some(ByNameIn(xs, n))
  {
    if xs != [] {
      var k := |xs| - 1;
      var init := xs[..k];
      AddEachAt(m, init, o, now, n);
      NamedSnoc(xs, n);
      AddAt(AddEach(m, init, o, now), xs[k], o(xs[k].name), now, n);
    }
  }

  // ---------------------------------------------------------------------
  // Convergence
  // ---------------------------------------------------------------------

  /** What a name needs before the call for its change to take effect. */
  ghost predicate Appliable(m: Manager.State, c: Change, name: string) {
    match c
    case Removed => Has(m.conns, name)
    case Modified => Has(m.conns, name)
    case Added => name !in Indexed(m.config) && !Connected(m, name)
    case Unchanged => true
    case Ignored => true
  }

  /** A name's entry and connection after a reload, from its classification alone. */
  lemma ReloadAt(m: Manager.State, new_: Config, o: string -> Outcome, now: real, n: string)
    requires Ok(m)
    ensures var c, m' := ChangeOf(m.config, new_, n), ApplyConfig(m, new_, o, now);
            && (Settled(c) ==> SameAt(m', m, n))
            && (!Settled(c) && !Appliable(m, c, n) ==> ServerAt(m'.config, n) == ServerAt(m.config, n))
            && (!Settled(c) && Appliable(m, c, n) ==>
                ServerAt(m'.config, n) == if c == Removed then None else ServerAt(new_, n))
  {
    var c, d := ChangeOf(m.config, new_, n), DiffConfigs(m.config, new_);
    DiffFacts(m.config, new_);
    ByNameFacts(new_);
    if d.IsEmpty() {
      EmptyMeansSettled(m.config, new_, n);
    } else {
      var m1 := RemoveAll(m, d.removed);
      var m2 := ReplaceAll(m1, d.modified, o, now);
      RemoveAllAt(m, d.removed, n);
      ReplaceAllAt(m1, d.modified, o, now, n);
      AddEachAt(m2, d.added, o, now, n);
      ListedOnce(m.config, new_, d.modified, Modified, n);
      ListedOnce(m.config, new_, d.added, Added, n);
      assert n in d.removed <==> c == Removed;
      ConnectedAt(m, m2, n);
    }
  }

  lemma ConnectedAt(a: Manager.State, b: Manager.State, n: string)
    ensures ConnAt(a, n) == ConnAt(b, n) ==>
            (Connected(a, n) <==> Connected(b, n)) && (Has(a.conns, n) <==> Has(b.conns, n))
  {
  }

  /** A name is in the one list its classification says. */
  lemma ListedOnce(old_: Config, new_: Config, xs: seq<ServerConfig>, c: Change, n: string)
    requires ListsServers(old_, new_, xs, c) && (c == Added || c == Modified)
    ensures NamedIn(xs, n) <==> ChangeOf(old_, new_, n) == c
    ensures NamedIn(xs, n) ==> ServerAt(new_, n) == Some(ByNameIn(xs, n))
  {
    ByNameFacts(new_);
    if ChangeOf(old_, new_, n) == c {
      var s := ServerAt(new_, n).value;
      assert s.name == n && s in xs;
      OnlyOneNamed(xs, n, s);
    }
  }

  ghost predicate Convergent(m: Manager.State, new_: Config) {
    forall n :: Appliable(m, ChangeOf(m.config, new_, n), n)
  }

  lemma SettledIff(old_: Config, new_: Config)
    ensures DiffConfigs(old_, new_).IsEmpty() <==> forall n :: Settled(ChangeOf(old_, new_, n))
  {
    EmptyDiffIff(old_, new_);
    if Effective(old_) == Effective(new_) {
      forall n ensures Settled(ChangeOf(old_, new_, n)) {
        SettledMeans(old_, new_, n);
      }
    }
    if forall n :: Settled(ChangeOf(old_, new_, n)) {
      forall n ensures n in Effective(old_) <==> n in Effective(new_)
        ensures n in Effective(old_) ==> Effective(old_)[n] == Effective(new_)[n]
      {
        assert Settled(ChangeOf(old_, new_, n));
      }
    }
  }

  /** A reload leaves nothing to reload exactly when every removed or modified server has a
      connection object and every added one is unknown to the manager and not connected. */
  lemma ReloadConvergesIff(m: Manager.State, new_: Config, o: string -> Outcome, now: real)
    requires Ok(m)
    ensures DiffConfigs(ApplyConfig(m, new_, o, now).config, new_).IsEmpty() <==> Convergent(m, new_)
  {
    var after := ApplyConfig(m, new_, o, now).config;
    SettledIff(after, new_);
    forall n ensures Settled(ChangeOf(after, new_, n)) <==> Appliable(m, ChangeOf(m.config, new_, n), n) {
      SettledAfter(m, new_, o, now, n);
    }
  }

  lemma SettledAfter(m: Manager.State, new_: Config, o: string -> Outcome, now: real, n: string)
    requires Ok(m)
    ensures Settled(ChangeOf(ApplyConfig(m, new_, o, now).config, new_, n)) <==>
            Appliable(m, ChangeOf(m.config, new_, n), n)
  {
    ReloadAt(m, new_, o, now, n);
  }

  /** Servers the diff does not touch keep their configuration entry and the very same connection object. */
  lemma UnchangedKeepConnection(m: Manager.State, new_: Config, o: string -> Outcome, now: real, n: string)
    requires Ok(m) && n in DiffConfigs(m.config, new_).same
    ensures ConnAt(ApplyConfig(m, new_, o, now), n) == ConnAt(m, n)
    ensures ServerAt(ApplyConfig(m, new_, o, now).config, n) == ServerAt(m.config, n)
  {
    DiffFacts(m.config, new_);
    ReloadAt(m, new_, o, now, n);
  }

  /** The usual situation suffices: enabled servers have connection objects, connections are
      configured, and no server goes from disabled to enabled. */
  lemma OrdinaryReloadConverges(m: Manager.State, new_: Config, o: string -> Outcome, now: real)
    requires Ok(m)
    requires forall n :: n in Effective(m.config) ==> Has(m.conns, n)
    requires forall n :: Has(m.conns, n) ==> n in Indexed(m.config)
    requires forall n :: n in Indexed(m.config) && n !in Effective(m.config) ==> n !in Effective(new_)
    ensures DiffConfigs(ApplyConfig(m, new_, o, now).config, new_).IsEmpty()
  {
    ReloadConvergesIff(m, new_, o, now);
    forall n ensures Appliable(m, ChangeOf(m.config, new_, n), n) {
      OrdinaryName(m, new_, n);
    }
  }

  lemma OrdinaryName(m: Manager.State, new_: Config, n: string)
    requires n in Effective(m.config) ==> Has(m.conns, n)
    requires Has(m.conns, n) ==> n in Indexed(m.config)
    requires n in Indexed(m.config) && n !in Effective(m.config) ==> n !in Effective(new_)
    ensures Appliable(m, ChangeOf(m.config, new_, n), n)
  {
  }

  /** Enabling a server that was configured but disabled never reaches the manager's configuration. */
  lemma EnablingDoesNotConverge(m: Manager.State, new_: Config, o: string -> Outcome, now: real, n: string)
    requires Ok(m) && n in Indexed(m.config) && n !in Effective(m.config) && n in Effective(new_)
    ensures !DiffConfigs(ApplyConfig(m, new_, o, now).config, new_).IsEmpty()
  {
    ReloadConvergesIff(m, new_, o, now);
    assert ChangeOf(m.config, new_, n) == Added;
    assert !Appliable(m, Added, n);
  }

  // ---------------------------------------------------------------------
  // The diff in terms of the configurations
  // ---------------------------------------------------------------------

  /** The entry that counts for a name is its last one. */
  ghost predicate LastEntry(config: Config, s: ServerConfig) {
    exists i :: 0 <= i < |config| && config[i] == s && forall j :: i < j < |config| ==> config[j].name != s.name
  }

  ghost predicate Names(config: Config, name: string) {
    exists i :: 0 <= i < |config| && config[i].name == name
  }

  lemma {:induction false} ServerAtIsLast(config: Config, name: string)
    ensures ServerAt(config, name).Some? <==> Names(config, name)
    ensures ServerAt(config, name).Some? ==>
              ServerAt(config, name).value.name == name && LastEntry(config, ServerAt(config, name).value)
  {
    if config != [] {
      var n := |config| - 1;
      var init, s := config[..n], config[n];
      ServerAtIsLast(init, name);
      assert init + [s] == config;
      IndexSnoc(init, s);
      if Names(init, name) {
        var i :| 0 <= i < |init| && init[i].name == name;
        assert config[i].name == name;
      }
      if s.name != name && ServerAt(init, name).Some? {
        var x := ServerAt(init, name).value;
        var i :| 0 <= i < |init| && init[i] == x && forall j :: i < j < |init| ==> init[j].name != x.name;
        assert config[i] == x;
      }
    }
  }

  /** One of the seven hashed fields differs. */
  ghost predicate FieldsDiffer(a: Hashed, b: Hashed) {
    || a.transport != b.transport || a.command != b.command || a.args != b.args || a.env != b.env
    || a.url != b.url || a.headers != b.headers || a.enabled != b.enabled
  }

  ghost predicate Runs(s: Option<ServerConfig>) {
    s.Some? && s.value.hashed.enabled
  }

  /** Added servers start to run, removed ones stop, modified ones run before and after with some field
      changed, and the others run before and after with none. */
  lemma DiffMeans(old_: Config, new_: Config, name: string)
    ensures var d, o, n := DiffConfigs(old_, new_), ServerAt(old_, name), ServerAt(new_, name);
            && (name in d.removed <==> Runs(o) && !Runs(n))
            && (name in d.same <==> Runs(o) && Runs(n) && !FieldsDiffer(o.value.hashed, n.value.hashed))
            && (n.Some? ==> (n.value in d.added <==> Runs(n) && !Runs(o)))
            && (n.Some? ==> (n.value in d.modified <==>
                               Runs(o) && Runs(n) && FieldsDiffer(o.value.hashed, n.value.hashed)))
  {
    DiffFacts(old_, new_);
    ByNameFacts(old_);
    ByNameFacts(new_);
  }
}
