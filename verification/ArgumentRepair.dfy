/**
 Argument repair on immutable trees: rebuilding flat `arguments.`-prefixed keys
 into a nested object, with explicit arguments and earlier keys winning.

 Every statement about a tree is made through `ShapeAt`, what a reader finds at
 the end of a path; `SameShape` shows that this determines the tree.
 */
module ArgumentRepair {
  import opened DottedKeys

  /** A decoded JSON value.  Lists count as scalars: repair never looks inside them. */
  datatype Json = Null | Scalar(text: string) | Obj(fields: map<string, Json>)

  datatype Shape = Absent | Node | Value(value: Json)

  function ShapeAt(j: Json, p: Path): Shape
    decreases |p|
  {
    if p == [] then (if j.Obj? then Node else Value(j))
    else if j.Obj? && p[0] in j.fields then ShapeAt(j.fields[p[0]], p[1..])
    else Absent
  }

  lemma FieldShape(j: Json, k: string)
    requires j.Obj?
    ensures ShapeAt(j, [k]) == Absent <==> k !in j.fields
  {
    assert [k][1..] == [];
  }

  /** Trees with the same shape along every path are equal. */
  lemma {:induction false} SameShape(a: Json, b: Json)
    requires forall q :: ShapeAt(a, q) == ShapeAt(b, q)
    ensures a == b
  {
    assert ShapeAt(a, []) == ShapeAt(b, []);
    if a.Obj? {
      forall k ensures k in a.fields <==> k in b.fields {
        assert ShapeAt(a, [k]) == ShapeAt(b, [k]);
        FieldShape(a, k);
        FieldShape(b, k);
      }
      forall k | k in a.fields ensures a.fields[k] == b.fields[k] {
        forall q ensures ShapeAt(a.fields[k], q) == ShapeAt(b.fields[k], q) {
          assert ([k] + q)[1..] == q;
          assert ShapeAt(a, [k] + q) == ShapeAt(b, [k] + q);
        }
        SameShape(a.fields[k], b.fields[k]);
      }
      assert a.fields == b.fields;
    }
  }

  // ---------------------------------------------------------------------
  // Placing one value
  // ---------------------------------------------------------------------

  /** `_descend` reaches a container for `p` and the last segment is not in it. */
  predicate Free(j: Json, p: Path)
    decreases |p|
  {
    && p != [] && j.Obj?
    && (p[0] in j.fields ==> |p| > 1 && Free(j.fields[p[0]], p[1..]))
  }

  function Nest(p: Path, v: Json): Json {
    if p == [] then v else Obj(map[p[0] := Nest(p[1..], v)])
  }

  function Insert(j: Json, p: Path, v: Json): Json
    requires Free(j, p)
    decreases |p|
  {
    var k := p[0];
    Obj(j.fields[k := if k in j.fields then Insert(j.fields[k], p[1..], v) else Nest(p[1..], v)])
  }

  lemma {:induction false} NestShape(p: Path, v: Json, q: Path)
    ensures ShapeAt(Nest(p, v), q) ==
            if p <= q then ShapeAt(v, q[|p|..]) else if q <= p then Node else Absent
    decreases |p|
  {
    if p != [] && q != [] && q[0] == p[0] {
      NestShape(p[1..], v, q[1..]);
      PrefixTails(p, q);
      assert p <= q ==> q[1..][|p| - 1..] == q[|p|..];
    }
  }

  lemma PrefixTails(p: Path, q: Path)
    requires p != [] && q != [] && p[0] == q[0]
    ensures p <= q <==> p[1..] <= q[1..]
    ensures q <= p <==> q[1..] <= p[1..]
  {
    assert p == [p[0]] + p[1..] && q == [q[0]] + q[1..];
  }

  /** Inserting changes the tree along the inserted path only. */
  lemma {:induction false} InsertShape(j: Json, p: Path, v: Json, q: Path)
    requires Free(j, p)
    ensures ShapeAt(Insert(j, p, v), q) ==
            if p <= q then ShapeAt(v, q[|p|..]) else if q <= p then Node else ShapeAt(j, q)
    decreases |p|
  {
    if q != [] && q[0] == p[0] {
      PrefixTails(p, q);
      assert p <= q ==> q[1..][|p| - 1..] == q[|p|..];
      if p[0] in j.fields {
        InsertShape(j.fields[p[0]], p[1..], v, q[1..]);
      } else {
        NestShape(p[1..], v, q[1..]);
      }
    }
  }

  ghost predicate NoValueBefore(j: Json, p: Path) {
    forall n :: 0 <= n < |p| ==> !ShapeAt(j, p[..n]).Value?
  }

  /** A path is free when nothing is there and no scalar is on the way. */
  lemma {:induction false} FreeShape(j: Json, p: Path)
    ensures Free(j, p) <==> p != [] && ShapeAt(j, p) == Absent && NoValueBefore(j, p)
    decreases |p|
  {
    if p != [] && j.Obj? && p[0] in j.fields {
      var c := j.fields[p[0]];
      FreeShape(c, p[1..]);
      forall n | 0 <= n < |p[1..]| ensures ShapeAt(j, p[..n + 1]) == ShapeAt(c, p[1..][..n]) {
        assert p[..n + 1][1..] == p[1..][..n];
      }
      if NoValueBefore(c, p[1..]) {
        forall n | 0 <= n < |p| ensures !ShapeAt(j, p[..n]).Value? {
          if n > 0 {
            assert ShapeAt(j, p[..(n - 1) + 1]) == ShapeAt(c, p[1..][..n - 1]);
          }
        }
      }
      if NoValueBefore(j, p) {
        forall n | 0 <= n < |p[1..]| ensures !ShapeAt(c, p[1..][..n]).Value? {
          assert !ShapeAt(j, p[..n + 1]).Value?;
        }
      }
    } else if p != [] && !j.Obj? {
      assert ShapeAt(j, p[..0]).Value?;
    }
  }

  // ---------------------------------------------------------------------
  // The repair loop
  // ---------------------------------------------------------------------

  type Payload = map<string, Json>

  const RESERVED: set<string> := {"tool", "arguments"}

  function DottedOf(payload: Payload): set<string> {
    set k | k in payload && IsDotted(k)
  }

  predicate WellFormed(p: Path) {
    forall i :: 0 <= i < |p| ==> p[i] != ""
  }

  datatype Rebuilt = Rebuilt(tree: Json, repaired: seq<string>, skipped: seq<string>)

  ghost predicate KeysOf(payload: Payload, keys: seq<string>) {
    forall k :: k in keys ==> k in payload && IsDotted(k)
  }

  /** One iteration of the loop over the dotted keys. */
  function Next(payload: Payload, r: Rebuilt, k: string): Rebuilt
    requires k in payload && IsDotted(k)
  {
    if WellFormed(PathOf(k)) && Free(r.tree, PathOf(k))
    then Rebuilt(Insert(r.tree, PathOf(k), payload[k]), r.repaired + [k], r.skipped)
    else r.(skipped := r.skipped + [k])
  }

  /** The `for key in dotted` loop started on the tree `explicit`. */
  function Rebuild(payload: Payload, explicit: Json, keys: seq<string>): Rebuilt
    requires KeysOf(payload, keys)
  {
    if keys == [] then Rebuilt(explicit, [], [])
    else
      var n := |keys| - 1;
      assert forall k :: k in keys[..n] ==> k in keys;
      Next(payload, Rebuild(payload, explicit, keys[..n]), keys[n])
  }

  datatype Repair = Repair(payload: Payload, repaired: seq<string>, skipped: seq<string>)

  /** Explicit arguments are absent, null or an object; anything else is left to the normaliser. */
  predicate Repairable(payload: Payload) {
    "arguments" in payload ==> payload["arguments"].Null? || payload["arguments"].Obj?
  }

  function ExplicitOf(payload: Payload): (j: Json)
    ensures j.Obj?
  {
    if "arguments" in payload && payload["arguments"].Obj? then payload["arguments"] else Obj(map[])
  }

  function Stripped(payload: Payload): Payload {
    map k | k in payload && !IsDotted(k) :: payload[k]
  }

  /** The repaired payload once the arguments have been rebuilt as `tree`. */
  function Envelope(payload: Payload, tree: Json, repaired: seq<string>): Payload {
    var stripped := Stripped(payload);
    if "arguments" in payload then stripped["arguments" := tree]
    else if repaired == [] then stripped
    else (map k | k in stripped && k in RESERVED :: stripped[k])["arguments" := Absorb(tree, stripped)]
  }

  /** `_reconstruct_dotted_arguments`; `keys` is `sorted` of the dotted keys. */
  function Reconstruct(payload: Payload, keys: seq<string>): Repair
    requires KeysOf(payload, keys)
  {
    if keys == [] then Repair(payload, [], [])
    else if !Repairable(payload) then Repair(Stripped(payload), [], keys)
    else
      var r := Rebuild(payload, ExplicitOf(payload), keys);
      Repair(Envelope(payload, r.tree, r.repaired), r.repaired, r.skipped)
  }

  /** Bare siblings join the rebuilt arguments unless their name is taken. */
  function Absorb(tree: Json, stripped: Payload): Json {
    if !tree.Obj? then tree
    else
      var siblings := map k | k in stripped && k !in RESERVED :: stripped[k];
      Obj(siblings + tree.fields)
  }

  lemma RebuildStep(payload: Payload, explicit: Json, keys: seq<string>)
    requires KeysOf(payload, keys) && keys != []
    ensures var n := |keys| - 1;
            && keys == keys[..n] + [keys[n]] && keys[n] in payload && IsDotted(keys[n]) && KeysOf(payload, keys[..n])
            && Rebuild(payload, explicit, keys) == Next(payload, Rebuild(payload, explicit, keys[..n]), keys[n])
  {
    assert keys[|keys| - 1] in keys;
    KeysInit(payload, keys);
  }

  lemma KeysInit(payload: Payload, keys: seq<string>)
    requires KeysOf(payload, keys) && keys != []
    ensures KeysOf(payload, keys[..|keys| - 1])
  {
    var init := keys[..|keys| - 1];
    forall k | k in init ensures k in payload && IsDotted(k) {
      assert k in keys;
    }
  }

  // --- Every key is handled once, skipped keys leave no trace -----------

  lemma {:induction false} RepairCounts(payload: Payload, explicit: Json, keys: seq<string>)
    requires KeysOf(payload, keys)
    ensures var r := Rebuild(payload, explicit, keys);
            multiset(r.repaired) + multiset(r.skipped) == multiset(keys)
  {
    if keys != [] {
      var n := |keys| - 1;
      RebuildStep(payload, explicit, keys);
      RepairCounts(payload, explicit, keys[..n]);
      assert multiset(keys) == multiset(keys[..n]) + multiset{keys[n]};
    }
  }

  lemma RepairMembers(payload: Payload, explicit: Json, keys: seq<string>)
    requires KeysOf(payload, keys)
    ensures var r := Rebuild(payload, explicit, keys);
            forall k :: k in keys <==> k in r.repaired || k in r.skipped
  {
    RepairCounts(payload, explicit, keys);
    var r := Rebuild(payload, explicit, keys);
    forall k ensures k in keys <==> k in r.repaired || k in r.skipped {
      assert k in keys <==> k in multiset(keys);
      assert k in multiset(keys) <==> k in multiset(r.repaired) || k in multiset(r.skipped);
    }
  }

  lemma SortedSnoc(keys: seq<string>, k: string)
    requires Sorted(keys) && forall a :: a in keys ==> Less(a, k)
    ensures Sorted(keys + [k])
  {
  }

  /** Repaired and skipped partition the dotted keys and keep their order. */
  lemma {:induction false} RepairPartitions(payload: Payload, explicit: Json, keys: seq<string>)
    requires KeysOf(payload, keys) && Sorted(keys)
    ensures var r := Rebuild(payload, explicit, keys);
            && multiset(r.repaired) + multiset(r.skipped) == multiset(keys)
            && Sorted(r.repaired) && Sorted(r.skipped)
            && (forall k :: k in r.repaired ==> k !in r.skipped)
  {
    RepairCounts(payload, explicit, keys);
    if keys != [] {
      var n := |keys| - 1;
      var init, k := keys[..n], keys[n];
      assert forall a :: a in init ==> a in keys;
      RepairPartitions(payload, explicit, init);
      RepairMembers(payload, explicit, init);
      var r := Rebuild(payload, explicit, init);
      assert forall a :: a in init ==> Less(a, k);
      LessTotal(k, k);
      if WellFormed(PathOf(k)) && Free(r.tree, PathOf(k)) {
        SortedSnoc(r.repaired, k);
      } else {
        SortedSnoc(r.skipped, k);
      }
    }
  }

  /** Dropping the skipped keys from the input changes nothing: they leave no
      value and no empty intermediate object behind. */
  lemma {:induction false} SkippedLeaveNoTrace(payload: Payload, explicit: Json, keys: seq<string>)
    requires KeysOf(payload, keys)
    ensures var r := Rebuild(payload, explicit, keys);
            && KeysOf(payload, r.repaired)
            && Rebuild(payload, explicit, r.repaired) == Rebuilt(r.tree, r.repaired, [])
  {
    if keys != [] {
      var n := |keys| - 1;
      assert forall k :: k in keys[..n] ==> k in keys;
      SkippedLeaveNoTrace(payload, explicit, keys[..n]);
      var before := Rebuild(payload, explicit, keys[..n]);
      var r := Rebuild(payload, explicit, keys);
      if r.repaired != before.repaired {
        assert r.repaired[..|r.repaired| - 1] == before.repaired;
      }
    }
  }

  lemma {:induction false} AbsentBelow(j: Json, p: Path, q: Path)
    requires ShapeAt(j, p) == Absent && p <= q
    ensures ShapeAt(j, q) == Absent
    decreases |p|
  {
    if p != [] && j.Obj? && p[0] in j.fields {
      PrefixTails(p, q);
      AbsentBelow(j.fields[p[0]], p[1..], q[1..]);
    }
  }

  /** Whatever the explicit arguments hold, at any depth, is still there. */
  lemma {:induction false} ExplicitWins(payload: Payload, explicit: Json, keys: seq<string>, q: Path)
    requires KeysOf(payload, keys) && ShapeAt(explicit, q) != Absent
    ensures ShapeAt(Rebuild(payload, explicit, keys).tree, q) == ShapeAt(explicit, q)
  {
    if keys != [] {
      var n := |keys| - 1;
      assert forall k :: k in keys[..n] ==> k in keys;
      ExplicitWins(payload, explicit, keys[..n], q);
      var t := Rebuild(payload, explicit, keys[..n]).tree;
      var p := PathOf(keys[n]);
      if Free(t, p) {
        InsertShape(t, p, payload[keys[n]], q);
        FreeShape(t, p);
        if p <= q {
          AbsentBelow(t, p, q);
        } else if q <= p {
          assert q == p[..|q|];
        }
      }
    }
  }

  // ---------------------------------------------------------------------
  // Which keys win
  // ---------------------------------------------------------------------

  /** No empty segment, and the explicit arguments leave the path free. */
  ghost predicate Eligible(explicit: Json, k: string) {
    IsDotted(k) && WellFormed(PathOf(k)) && Free(explicit, PathOf(k))
  }

  /** Eligible, and no eligible key of the payload names a proper prefix of the path. */
  ghost predicate Top(all: set<string>, explicit: Json, k: string) {
    k in all && Eligible(explicit, k) &&
    forall a :: a in all && Eligible(explicit, a) ==> !(PathOf(a) < PathOf(k))
  }

  ghost function Tops(all: set<string>, explicit: Json, keys: seq<string>): set<string> {
    set k | k in keys && Top(all, explicit, k)
  }

  ghost predicate Below(tops: set<string>, q: Path) {
    exists a :: a in tops && IsDotted(a) && PathOf(a) < q
  }

  ghost predicate Above(tops: set<string>, q: Path) {
    exists a :: a in tops && IsDotted(a) && q < PathOf(a)
  }

  ghost predicate Named(tops: set<string>, q: Path) {
    |q| >= 1 && KeyOf(q) in tops && PathOf(KeyOf(q)) == q
  }

  /** The explicit tree with the values of `tops` laid over it. */
  ghost function Overlay(payload: Payload, explicit: Json, tops: set<string>, q: Path): Shape
    requires tops <= payload.Keys
  {
    if Named(tops, q) then ShapeAt(payload[KeyOf(q)], [])
    else if Above(tops, q) then Node
    else ShapeAt(explicit, q)
  }

  /** `keys` is an initial part of the sorted dotted keys `all`. */
  ghost predicate Started(payload: Payload, explicit: Json, all: set<string>, keys: seq<string>) {
    && all <= payload.Keys && (forall k :: k in all ==> IsDotted(k))
    && explicit.Obj? && Sorted(keys) && (forall k :: k in keys ==> k in all)
    && (forall a, b :: a in keys && b in all && PathOf(b) < PathOf(a) ==> b in keys)
  }

  lemma StartedInit(payload: Payload, explicit: Json, all: set<string>, keys: seq<string>)
    requires Started(payload, explicit, all, keys) && keys != []
    ensures Started(payload, explicit, all, keys[..|keys| - 1])
    ensures var k := keys[|keys| - 1];
            && k in all && k !in keys[..|keys| - 1]
            && (forall a :: a in keys[..|keys| - 1] ==> Less(a, k))
            && (forall b :: b in all && PathOf(b) < PathOf(k) ==> b in keys[..|keys| - 1])
  {
    var n := |keys| - 1;
    var init := keys[..n];
    LessTotal(keys[n], keys[n]);
    forall a, b | a in init && b in all && PathOf(b) < PathOf(a) ensures b in init {
      assert a in keys && b in keys;
      PrefixSortsFirst(b, a);
      LessTotal(keys[n], a);
    }
    forall b | b in all && PathOf(b) < PathOf(keys[n]) ensures b in init {
      assert b in keys && keys == init + [keys[n]];
    }
  }

  lemma {:induction false} TopAbove(all: set<string>, explicit: Json, k: string) returns (b: string)
    requires k in all && Eligible(explicit, k) && !Top(all, explicit, k)
    ensures Top(all, explicit, b) && PathOf(b) < PathOf(k)
    decreases |PathOf(k)|
  {
    var a :| a in all && Eligible(explicit, a) && PathOf(a) < PathOf(k);
    b := a;
    if !Top(all, explicit, a) {
      b := TopAbove(all, explicit, a);
    }
  }

  ghost predicate Good(payload: Payload, explicit: Json, tops: set<string>, r: Rebuilt)
    requires tops <= payload.Keys
  {
    && Overlaid(payload, explicit, tops, r.tree)
    && (forall k :: k in tops ==> k in r.repaired)
    && (forall k :: k in r.repaired && k !in tops ==> InsideObject(payload, tops, k))
    && (AllIn(r.repaired, tops) ==> Undisturbed(payload, tops, r.tree))
  }

  ghost predicate AllIn(keys: seq<string>, tops: set<string>) {
    forall k :: k in keys ==> k in tops
  }

  ghost predicate Overlaid(payload: Payload, explicit: Json, tops: set<string>, tree: Json)
    requires tops <= payload.Keys
  {
    forall q :: !Below(tops, q) ==> ShapeAt(tree, q) == Overlay(payload, explicit, tops, q)
  }

  ghost predicate InsideObject(payload: Payload, tops: set<string>, k: string) {
    IsDotted(k) && exists b :: b in tops && b in payload && IsDotted(b) && PathOf(b) < PathOf(k) && payload[b].Obj?
  }

  /** Under each placed key the tree is the placed value. */
  ghost predicate Undisturbed(payload: Payload, tops: set<string>, tree: Json)
    requires tops <= payload.Keys
  {
    forall b, q :: b in tops && IsDotted(b) && PathOf(b) <= q ==>
      ShapeAt(tree, q) == ShapeAt(payload[b], q[|PathOf(b)|..])
  }

  lemma KeyNamed(tops: set<string>, k: string)
    requires IsDotted(k)
    ensures k in tops <==> Named(tops, PathOf(k))
  {
    KeyPathInverse(k);
  }

  /** A key that is not eligible finds its place taken. */
  lemma IneligibleIsSkipped(payload: Payload, explicit: Json, keys: seq<string>, k: string)
    requires KeysOf(payload, keys) && IsDotted(k) && !Eligible(explicit, k)
    ensures !(WellFormed(PathOf(k)) && Free(Rebuild(payload, explicit, keys).tree, PathOf(k)))
  {
    var t, p := Rebuild(payload, explicit, keys).tree, PathOf(k);
    FreeShape(t, p);
    FreeShape(explicit, p);
    if ShapeAt(explicit, p) != Absent {
      ExplicitWins(payload, explicit, keys, p);
    }
    forall n | 0 <= n < |p| && ShapeAt(explicit, p[..n]).Value? ensures ShapeAt(t, p[..n]).Value? {
      ExplicitWins(payload, explicit, keys, p[..n]);
    }
  }

  /** The loop places a top key on untouched ground. */
  lemma TopIsFree(payload: Payload, explicit: Json, all: set<string>, keys: seq<string>, tree: Json, k: string)
    requires Started(payload, explicit, all, keys)
    requires Overlaid(payload, explicit, Tops(all, explicit, keys), tree)
    requires Top(all, explicit, k) && forall a :: a in keys ==> Less(a, k)
    ensures Free(tree, PathOf(k))
  {
    var tops, p := Tops(all, explicit, keys), PathOf(k);
    FreeShape(tree, p);
    FreeShape(explicit, p);
    TopNotCovered(payload, explicit, all, keys, k);
    forall n | 0 <= n < |p| ensures !ShapeAt(tree, p[..n]).Value? {
      PrefixNotCovered(all, explicit, tops, k, n);
    }
  }

  lemma TopNotCovered(payload: Payload, explicit: Json, all: set<string>, keys: seq<string>, k: string)
    requires Started(payload, explicit, all, keys)
    requires Top(all, explicit, k) && forall a :: a in keys ==> Less(a, k)
    ensures var tops, p := Tops(all, explicit, keys), PathOf(k);
            !Below(tops, p) && !Named(tops, p) && !Above(tops, p)
  {
    var tops, p := Tops(all, explicit, keys), PathOf(k);
    LessTotal(k, k);
    KeyNamed(tops, k);
    forall a | a in tops && IsDotted(a) ensures !(p < PathOf(a)) {
      if p < PathOf(a) {
        PrefixSortsFirst(k, a);
        LessTotal(a, k);
      }
    }
  }

  lemma PrefixNotCovered(all: set<string>, explicit: Json, tops: set<string>, k: string, n: nat)
    requires Top(all, explicit, k) && n < |PathOf(k)|
    requires forall a :: a in tops ==> Top(all, explicit, a)
    ensures !Below(tops, PathOf(k)[..n]) && !Named(tops, PathOf(k)[..n])
  {
    var q := PathOf(k)[..n];
    assert q < PathOf(k);
    assert forall a :: a in tops ==> !(PathOf(a) < PathOf(k));
  }

  lemma TopsStep(all: set<string>, explicit: Json, keys: seq<string>)
    requires keys != []
    ensures var k := keys[|keys| - 1];
            Tops(all, explicit, keys) ==
            Tops(all, explicit, keys[..|keys| - 1]) + if Top(all, explicit, k) then {k} else {}
  {
    assert keys == keys[..|keys| - 1] + [keys[|keys| - 1]];
  }

  lemma LoopStep(payload: Payload, explicit: Json, all: set<string>, keys: seq<string>, k: string)
    requires Started(payload, explicit, all, keys) && k in all && k !in keys
    requires (forall a :: a in keys ==> Less(a, k)) && (forall b :: b in all && PathOf(b) < PathOf(k) ==> b in keys)
    requires Good(payload, explicit, Tops(all, explicit, keys), Rebuild(payload, explicit, keys))
    ensures var tops := Tops(all, explicit, keys) + if Top(all, explicit, k) then {k} else {};
            Good(payload, explicit, tops, Next(payload, Rebuild(payload, explicit, keys), k))
  {
    var r, tops := Rebuild(payload, explicit, keys), Tops(all, explicit, keys);
    if !Eligible(explicit, k) {
      IneligibleIsSkipped(payload, explicit, keys, k);
    } else if Top(all, explicit, k) {
      TopIsFree(payload, explicit, all, keys, r.tree, k);
      PlaceTop(payload, explicit, all, tops, r, k);
    } else {
      PlaceInside(payload, explicit, all, keys, r, k);
    }
    assert tops + {} == tops;
  }

  lemma StartGood(payload: Payload, explicit: Json, all: set<string>)
    ensures Tops(all, explicit, []) == {}
    ensures Good(payload, explicit, {}, Rebuilt(explicit, [], []))
  {
  }

  lemma {:induction false} LoopInvariant(payload: Payload, explicit: Json, all: set<string>, keys: seq<string>)
    requires Started(payload, explicit, all, keys)
    ensures Good(payload, explicit, Tops(all, explicit, keys), Rebuild(payload, explicit, keys))
  {
    if keys == [] {
      StartGood(payload, explicit, all);
    } else {
      var n := |keys| - 1;
      StartedInit(payload, explicit, all, keys);
      LoopInvariant(payload, explicit, all, keys[..n]);
      TopsStep(all, explicit, keys);
      LoopStep(payload, explicit, all, keys[..n], keys[n]);
    }
  }

  lemma PlaceTop(payload: Payload, explicit: Json, all: set<string>, was: set<string>, r: Rebuilt, k: string)
    requires was <= payload.Keys && k in payload && k !in was
    requires forall a :: a in was ==> Top(all, explicit, a)
    requires Good(payload, explicit, was, r)
    requires Top(all, explicit, k) && Free(r.tree, PathOf(k))
    ensures Good(payload, explicit, was + {k},
                 Rebuilt(Insert(r.tree, PathOf(k), payload[k]), r.repaired + [k], r.skipped))
  {
    var p, tops := PathOf(k), was + {k};
    var t := Insert(r.tree, p, payload[k]);
    forall q | !Below(tops, q) ensures ShapeAt(t, q) == Overlay(payload, explicit, tops, q) {
      InsertShape(r.tree, p, payload[k], q);
      OverlayGrows(payload, explicit, all, was, k, q);
    }
    assert Overlaid(payload, explicit, tops, t);
    forall a | a in r.repaired + [k] && a !in tops ensures InsideObject(payload, tops, a) {
      assert a in r.repaired && InsideObject(payload, was, a);
    }
    if AllIn(r.repaired + [k], tops) {
      forall a | a in r.repaired ensures a in was {
        assert a in r.repaired + [k];
        assert a in was || InsideObject(payload, was, a);
      }
      UndisturbedTop(payload, explicit, all, was, r.tree, k);
    }
  }

  lemma UndisturbedTop(payload: Payload, explicit: Json, all: set<string>, was: set<string>, tree: Json, k: string)
    requires was <= payload.Keys && k in payload && k !in was
    requires forall a :: a in was ==> Top(all, explicit, a)
    requires Undisturbed(payload, was, tree)
    requires Top(all, explicit, k) && Free(tree, PathOf(k))
    ensures Undisturbed(payload, was + {k}, Insert(tree, PathOf(k), payload[k]))
  {
    var p, tops := PathOf(k), was + {k};
    var t := Insert(tree, p, payload[k]);
    forall b, q | b in tops && IsDotted(b) && PathOf(b) <= q
      ensures ShapeAt(t, q) == ShapeAt(payload[b], q[|PathOf(b)|..])
    {
      InsertShape(tree, p, payload[k], q);
      if b != k {
        TopsIncomparable(all, explicit, b, k);
        Divergent(p, PathOf(b), q);
      }
    }
  }

  lemma PrefixesCompare(a: Path, b: Path, q: Path)
    requires a <= q && b <= q
    ensures a <= b || b <= a
  {
    if |a| <= |b| {
      assert a == q[..|a|] == b[..|a|];
    } else {
      assert b == q[..|b|] == a[..|b|];
    }
  }

  lemma PrefixCases(a: Path, b: Path)
    ensures a <= b <==> a == b || a < b
  {
  }

  lemma Divergent(p: Path, pb: Path, q: Path)
    requires pb <= q && !(p <= pb) && !(pb <= p)
    ensures !(p <= q) && !(q <= p)
  {
    if p <= q {
      PrefixesCompare(p, pb, q);
    }
  }

  lemma TopsIncomparable(all: set<string>, explicit: Json, a: string, b: string)
    requires Top(all, explicit, a) && Top(all, explicit, b) && a != b
    ensures !(PathOf(a) <= PathOf(b)) && !(PathOf(b) <= PathOf(a))
  {
    KeyPathInverse(a);
    KeyPathInverse(b);
    PrefixCases(PathOf(a), PathOf(b));
    PrefixCases(PathOf(b), PathOf(a));
  }

  lemma OverlayGrows(payload: Payload, explicit: Json, all: set<string>, was: set<string>, k: string, q: Path)
    requires was <= payload.Keys && k in payload && Top(all, explicit, k)
    requires forall a :: a in was ==> Top(all, explicit, a)
    requires !Below(was + {k}, q) && k !in was
    ensures !Below(was, q)
    ensures Overlay(payload, explicit, was + {k}, q) ==
            if PathOf(k) <= q then ShapeAt(payload[k], []) else if q <= PathOf(k) then Node
            else Overlay(payload, explicit, was, q)
    ensures PathOf(k) <= q ==> q == PathOf(k)
  {
    var tops, p := was + {k}, PathOf(k);
    assert k in tops && !(p < q);
    KeyPathInverse(k);
    if q == p {
    } else if q < p {
      assert Above(tops, q);
      assert Named(tops, q) ==> Top(all, explicit, KeyOf(q));
    } else {
      assert Named(tops, q) <==> Named(was, q);
      assert Above(tops, q) <==> Above(was, q);
    }
  }

  /** Above a free path a top key can only have put an object. */
  lemma AboveIsObject(payload: Payload, explicit: Json, all: set<string>, keys: seq<string>, r: Rebuilt, b: string,
                      p: Path)
    requires Started(payload, explicit, all, keys) && Good(payload, explicit, Tops(all, explicit, keys), r)
    requires b in Tops(all, explicit, keys) && IsDotted(b) && PathOf(b) < p && Free(r.tree, p)
    ensures payload[b].Obj?
  {
    var tops, pb := Tops(all, explicit, keys), PathOf(b);
    FreeShape(r.tree, p);
    assert pb == p[..|pb|];
    KeyNamed(tops, b);
    KeyPathInverse(b);
    assert !Below(tops, pb);
    assert ShapeAt(r.tree, pb) == ShapeAt(payload[b], []);
  }

  lemma PlaceInside(payload: Payload, explicit: Json, all: set<string>, keys: seq<string>, r: Rebuilt, k: string)
    requires Started(payload, explicit, all, keys) && Good(payload, explicit, Tops(all, explicit, keys), r)
    requires k in all && Eligible(explicit, k) && !Top(all, explicit, k)
    requires forall b :: b in all && PathOf(b) < PathOf(k) ==> b in keys
    ensures Free(r.tree, PathOf(k)) ==>
              Good(payload, explicit, Tops(all, explicit, keys),
                   Rebuilt(Insert(r.tree, PathOf(k), payload[k]), r.repaired + [k], r.skipped))
  {
    var tops, p := Tops(all, explicit, keys), PathOf(k);
    var b := TopAbove(all, explicit, k);
    var pb := PathOf(b);
    assert b in tops;
    if Free(r.tree, p) {
      AboveIsObject(payload, explicit, all, keys, r, b, p);
      var t := Insert(r.tree, p, payload[k]);
      forall q | !Below(tops, q) ensures ShapeAt(t, q) == Overlay(payload, explicit, tops, q) {
        InsertShape(r.tree, p, payload[k], q);
        InsidePrefix(payload, explicit, all, tops, b, p, q);
      }
      assert InsideObject(payload, tops, k);
      assert k in r.repaired + [k] && k !in tops;
    }
  }

  lemma InsidePrefix(payload: Payload, explicit: Json, all: set<string>, tops: set<string>, b: string, p: Path, q: Path)
    requires tops <= payload.Keys && b in tops && payload[b].Obj?
    requires forall a :: a in tops ==> Top(all, explicit, a)
    requires IsDotted(b) && PathOf(b) < p && !Below(tops, q)
    ensures !(p <= q) && (q <= p ==> Overlay(payload, explicit, tops, q) == Node)
  {
    var pb := PathOf(b);
    assert !(pb < q);
    KeyPathInverse(b);
    if q <= p {
      PrefixesCompare(q, pb, p);
      if q != pb {
        assert Above(tops, q);
        assert Named(tops, q) ==> Top(all, explicit, KeyOf(q));
      }
    }
  }

  // --- Main results about winners -----------------------------------------

  lemma AllStarted(payload: Payload, explicit: Json, keys: seq<string>)
    requires SortedEnum(keys, DottedOf(payload)) && explicit.Obj?
    ensures KeysOf(payload, keys) && Started(payload, explicit, DottedOf(payload), keys)
  {
  }

  /** For every payload: top keys win, ineligible keys lose, and any other
      winner lies inside an object that a top key brought in. */
  lemma TopKeysWin(payload: Payload, explicit: Json, keys: seq<string>, k: string)
    requires SortedEnum(keys, DottedOf(payload)) && explicit.Obj? && KeysOf(payload, keys) && k in keys
    ensures var r, all := Rebuild(payload, explicit, keys), DottedOf(payload);
            && (Top(all, explicit, k) ==> k in r.repaired)
            && (!Eligible(explicit, k) ==> k in r.skipped && k !in r.repaired)
            && (k in r.repaired ==> Top(all, explicit, k) || InsideObject(payload, Tops(all, explicit, keys), k))
  {
    AllStarted(payload, explicit, keys);
    LoopInvariant(payload, explicit, DottedOf(payload), keys);
    RepairMembers(payload, explicit, keys);
    RepairPartitions(payload, explicit, keys);
    if !Eligible(explicit, k) {
      IneligibleNeverRepaired(payload, explicit, keys, k);
    }
  }

  lemma {:induction false} IneligibleNeverRepaired(payload: Payload, explicit: Json, keys: seq<string>, k: string)
    requires KeysOf(payload, keys) && IsDotted(k) && !Eligible(explicit, k)
    ensures k !in Rebuild(payload, explicit, keys).repaired
  {
    if keys != [] {
      var n := |keys| - 1;
      assert forall a :: a in keys[..n] ==> a in keys;
      IneligibleNeverRepaired(payload, explicit, keys[..n], k);
      IneligibleIsSkipped(payload, explicit, keys[..n], k);
    }
  }

  /** When no dotted value is an object, the winners are the top keys and the
      result is the explicit tree with their values laid over it. */
  lemma WinnersAreTopKeys(payload: Payload, explicit: Json, keys: seq<string>)
    requires SortedEnum(keys, DottedOf(payload)) && explicit.Obj? && KeysOf(payload, keys)
    requires forall k :: k in keys ==> !payload[k].Obj?
    ensures var r, all := Rebuild(payload, explicit, keys), DottedOf(payload);
            && (forall k :: k in r.repaired <==> Top(all, explicit, k))
            && (forall q :: ShapeAt(r.tree, q) == Overlay(payload, explicit, Tops(all, explicit, keys), q))
  {
    var r, all := Rebuild(payload, explicit, keys), DottedOf(payload);
    var tops := Tops(all, explicit, keys);
    AllStarted(payload, explicit, keys);
    LoopInvariant(payload, explicit, all, keys);
    RepairMembers(payload, explicit, keys);
    forall q | Below(tops, q) ensures ShapeAt(r.tree, q) == Overlay(payload, explicit, tops, q) {
      var b :| b in tops && IsDotted(b) && PathOf(b) < q;
      UnderScalar(payload, explicit, all, tops, b, q);
    }
  }

  lemma UnderScalar(payload: Payload, explicit: Json, all: set<string>, tops: set<string>, b: string, q: Path)
    requires tops <= payload.Keys && b in tops && (forall a :: a in tops ==> Top(all, explicit, a))
    requires IsDotted(b) && PathOf(b) < q && !payload[b].Obj?
    ensures Overlay(payload, explicit, tops, q) == Absent
    ensures ShapeAt(payload[b], q[|PathOf(b)|..]) == Absent
  {
    FreeShape(explicit, PathOf(b));
    AbsentBelow(explicit, PathOf(b), q);
    assert Named(tops, q) ==> Top(all, explicit, KeyOf(q));
    assert forall a :: a in tops ==> !(PathOf(b) < PathOf(a));
  }

  /** Some key is placed inside a dotted object exactly when, in the input, a top
      key's object leaves the rest of a longer key's path free. */
  ghost predicate Grafts(payload: Payload, explicit: Json, all: set<string>, b: string, k: string) {
    && Top(all, explicit, b) && b in payload && payload[b].Obj?
    && k in all && IsDotted(k) && WellFormed(PathOf(k)) && PathOf(b) < PathOf(k)
    && Free(payload[b], PathOf(k)[|PathOf(b)|..])
  }

  lemma GraftIsEligible(payload: Payload, explicit: Json, all: set<string>, b: string, k: string)
    requires Top(all, explicit, b) && IsDotted(k) && WellFormed(PathOf(k)) && PathOf(b) < PathOf(k)
    ensures Eligible(explicit, k)
  {
    var pb, p := PathOf(b), PathOf(k);
    FreeShape(explicit, pb);
    FreeShape(explicit, p);
    AbsentBelow(explicit, pb, p);
    forall n | 0 <= n < |p| ensures !ShapeAt(explicit, p[..n]).Value? {
      if n < |pb| {
        assert p[..n] == pb[..n];
      } else {
        assert pb <= p[..n];
        AbsentBelow(explicit, pb, p[..n]);
      }
    }
  }

  /** Under an undisturbed object, the whole tree is free where the object is. */
  lemma FreeUnderTop(payload: Payload, explicit: Json, all: set<string>, keys: seq<string>, r: Rebuilt, b: string,
                     p: Path)
    requires Started(payload, explicit, all, keys) && Good(payload, explicit, Tops(all, explicit, keys), r)
    requires AllIn(r.repaired, Tops(all, explicit, keys))
    requires b in Tops(all, explicit, keys) && IsDotted(b) && payload[b].Obj? && PathOf(b) < p
    ensures Free(r.tree, p) <==> Free(payload[b], p[|PathOf(b)|..])
  {
    var tops, pb := Tops(all, explicit, keys), PathOf(b);
    var rest := p[|pb|..];
    FreeShape(r.tree, p);
    FreeShape(payload[b], rest);
    assert ShapeAt(r.tree, p) == ShapeAt(payload[b], rest);
    forall n | 0 <= n < |p|
      ensures ShapeAt(r.tree, p[..n]) == if n < |pb| then Node else ShapeAt(payload[b], rest[..n - |pb|])
    {
      if n < |pb| {
        assert p[..n] == pb[..n] < pb;
        PrefixNotCovered(all, explicit, tops, b, n);
        assert Above(tops, p[..n]);
      } else {
        assert pb <= p[..n] && p[..n][|pb|..] == rest[..n - |pb|];
      }
    }
    if Free(r.tree, p) {
      forall n | 0 <= n < |rest| ensures !ShapeAt(payload[b], rest[..n]).Value? {
        assert rest[..(n + |pb|) - |pb|] == rest[..n];
        assert !ShapeAt(r.tree, p[..n + |pb|]).Value?;
      }
    }
  }

  ghost predicate Grafted(payload: Payload, explicit: Json, all: set<string>, keys: seq<string>) {
    exists b, k :: k in keys && Grafts(payload, explicit, all, b, k)
  }

  lemma {:induction false} GraftsExactly(payload: Payload, explicit: Json, all: set<string>, keys: seq<string>)
    requires Started(payload, explicit, all, keys)
    ensures AllIn(Rebuild(payload, explicit, keys).repaired, Tops(all, explicit, keys)) <==>
            !Grafted(payload, explicit, all, keys)
  {
    if keys != [] {
      var n := |keys| - 1;
      var init, k := keys[..n], keys[n];
      StartedInit(payload, explicit, all, keys);
      GraftsExactly(payload, explicit, all, init);
      RebuildStep(payload, explicit, keys);
      var r, tops := Rebuild(payload, explicit, init), Tops(all, explicit, init);
      GraftedSnoc(payload, explicit, all, init, k);
      if AllIn(r.repaired, tops) {
        LoopInvariant(payload, explicit, all, init);
        LastGraft(payload, explicit, all, init, k);
        LastAllIn(payload, explicit, all, keys);
      } else {
        EarlierGraft(payload, explicit, all, keys);
      }
    }
  }

  lemma GraftedSnoc(payload: Payload, explicit: Json, all: set<string>, keys: seq<string>, k: string)
    ensures Grafted(payload, explicit, all, keys + [k]) <==>
            Grafted(payload, explicit, all, keys) || exists b :: Grafts(payload, explicit, all, b, k)
  {
    if Grafted(payload, explicit, all, keys) {
      var b, a :| a in keys && Grafts(payload, explicit, all, b, a);
      assert a in keys + [k];
    }
    if b :| Grafts(payload, explicit, all, b, k) {
      assert k in keys + [k];
    }
  }

  lemma LastAllIn(payload: Payload, explicit: Json, all: set<string>, keys: seq<string>)
    requires Started(payload, explicit, all, keys) && keys != []
    requires AllIn(Rebuild(payload, explicit, keys[..|keys| - 1]).repaired, Tops(all, explicit, keys[..|keys| - 1]))
    ensures var k := keys[|keys| - 1];
            AllIn(Rebuild(payload, explicit, keys).repaired, Tops(all, explicit, keys)) <==>
            !(k in Rebuild(payload, explicit, keys).repaired && !Top(all, explicit, k))
  {
    RebuildStep(payload, explicit, keys);
    StartedInit(payload, explicit, all, keys);
    TopsStep(all, explicit, keys);
    RepairMembers(payload, explicit, keys[..|keys| - 1]);
  }

  lemma EarlierGraft(payload: Payload, explicit: Json, all: set<string>, keys: seq<string>)
    requires Started(payload, explicit, all, keys) && keys != []
    requires !AllIn(Rebuild(payload, explicit, keys[..|keys| - 1]).repaired, Tops(all, explicit, keys[..|keys| - 1]))
    ensures !AllIn(Rebuild(payload, explicit, keys).repaired, Tops(all, explicit, keys))
  {
    var init := keys[..|keys| - 1];
    RebuildStep(payload, explicit, keys);
    StartedInit(payload, explicit, all, keys);
    TopsStep(all, explicit, keys);
    RepairMembers(payload, explicit, init);
    var a :| a in Rebuild(payload, explicit, init).repaired && a !in Tops(all, explicit, init);
    assert a in Rebuild(payload, explicit, keys).repaired;
  }

  lemma LastGraft(payload: Payload, explicit: Json, all: set<string>, keys: seq<string>, k: string)
    requires Started(payload, explicit, all, keys) && k in all && k !in keys
    requires forall b :: b in all && PathOf(b) < PathOf(k) ==> b in keys
    requires forall a :: a in keys ==> Less(a, k)
    requires Good(payload, explicit, Tops(all, explicit, keys), Rebuild(payload, explicit, keys))
    requires AllIn(Rebuild(payload, explicit, keys).repaired, Tops(all, explicit, keys))
    ensures var r := Next(payload, Rebuild(payload, explicit, keys), k);
            (k in r.repaired && !Top(all, explicit, k)) <==> exists b :: Grafts(payload, explicit, all, b, k)
  {
    var r, p := Rebuild(payload, explicit, keys), PathOf(k);
    RepairMembers(payload, explicit, keys);
    if !Eligible(explicit, k) {
      IneligibleIsSkipped(payload, explicit, keys, k);
      forall b | Grafts(payload, explicit, all, b, k) ensures false {
        GraftIsEligible(payload, explicit, all, b, k);
      }
    } else if !Top(all, explicit, k) {
      PlaceInside(payload, explicit, all, keys, r, k);
      forall b | Top(all, explicit, b) && PathOf(b) < p && payload[b].Obj?
        ensures Free(r.tree, p) <==> Grafts(payload, explicit, all, b, k)
      {
        FreeUnderTop(payload, explicit, all, keys, r, b, p);
      }
      if Free(r.tree, p) {
        var tops := Tops(all, explicit, keys);
        assert k in r.repaired + [k] && k !in tops;
        var b :| b in tops && b in payload && IsDotted(b) && PathOf(b) < p && payload[b].Obj?;
        assert Grafts(payload, explicit, all, b, k);
      }
    }
  }

  // ---------------------------------------------------------------------
  // Flattening and rebuilding
  // ---------------------------------------------------------------------

  predicate IsLeaf(j: Json) {
    !j.Obj? || j.fields == map[]
  }

  /** Paths to the leaves: scalars and empty objects. */
  function LeafPaths(j: Json): set<Path> {
    if IsLeaf(j) then {[]}
    else set k, p | k in j.fields && p in LeafPaths(j.fields[k]) :: [k] + p
  }

  /** The value at the end of a path. */
  function Sub(j: Json, p: Path): Json
    requires ShapeAt(j, p) != Absent
    decreases |p|
  {
    if p == [] then j else Sub(j.fields[p[0]], p[1..])
  }

  /** Keys that survive flattening: non-empty and without a dot, at every depth. */
  predicate Plain(j: Json) {
    j.Obj? ==> forall k :: k in j.fields ==> k != "" && '.' !in k && Plain(j.fields[k])
  }

  lemma {:induction false} LeafPathShape(j: Json, p: Path)
    ensures p in LeafPaths(j) <==> ShapeAt(j, p) != Absent && IsLeaf(Sub(j, p))
    decreases |p|
  {
    if IsLeaf(j) {
    } else if p == [] {
    } else {
      if p[0] in j.fields {
        LeafPathShape(j.fields[p[0]], p[1..]);
        assert p == [p[0]] + p[1..];
      }
      forall k, q | k in j.fields && q in LeafPaths(j.fields[k]) && p == [k] + q ensures k == p[0] && q == p[1..] {
      }
    }
  }

  lemma {:induction false} PlainPath(j: Json, p: Path)
    requires Plain(j) && ShapeAt(j, p) != Absent
    ensures WellFormed(p) && DotFree(p)
    decreases |p|
  {
    if p != [] {
      PlainPath(j.fields[p[0]], p[1..]);
      assert p == [p[0]] + p[1..];
    }
  }

  lemma {:induction false} SubShape(j: Json, p: Path, q: Path)
    requires ShapeAt(j, p) != Absent && p <= q
    ensures ShapeAt(j, q) == ShapeAt(Sub(j, p), q[|p|..])
    decreases |p|
  {
    if p != [] {
      PrefixTails(p, q);
      SubShape(j.fields[p[0]], p[1..], q[1..]);
      assert q[1..][|p| - 1..] == q[|p|..];
    }
  }

  /** Every object node that is not a leaf has a leaf below it. */
  lemma {:induction false} LeafBelow(j: Json, q: Path) returns (p: Path)
    requires ShapeAt(j, q) != Absent
    ensures p in LeafPaths(j) && q <= p
    decreases |q|, j
  {
    if q != [] {
      var t := LeafBelow(j.fields[q[0]], q[1..]);
      p := [q[0]] + t;
      assert q == [q[0]] + q[1..];
    } else if IsLeaf(j) {
      p := [];
    } else {
      var k :| k in j.fields;
      var t := LeafBelow(j.fields[k], []);
      p := [k] + t;
    }
  }

  /** One flat key per leaf. */
  function Flatten(tree: Json): Payload
    requires tree.Obj? && tree.fields != map[] && Plain(tree)
  {
    map k | k in FlatKeys(tree) :: FlatKeyFacts(tree, k); Sub(tree, PathOf(k))
  }

  function FlatKeys(tree: Json): set<string>
    requires tree.Obj? && tree.fields != map[]
  {
    set p | p in LeafPaths(tree) && |p| >= 1 :: KeyOf(p)
  }

  lemma FlatKeyFacts(tree: Json, k: string)
    requires tree.Obj? && tree.fields != map[] && Plain(tree) && k in FlatKeys(tree)
    ensures IsDotted(k) && PathOf(k) in LeafPaths(tree) && ShapeAt(tree, PathOf(k)) != Absent
    ensures WellFormed(PathOf(k)) && IsLeaf(Sub(tree, PathOf(k)))
  {
    var p :| p in LeafPaths(tree) && |p| >= 1 && KeyOf(p) == k;
    LeafPathShape(tree, p);
    PlainPath(tree, p);
    PathKeyInverse(p);
  }

  lemma FlatPathFacts(tree: Json, p: Path)
    requires tree.Obj? && tree.fields != map[] && Plain(tree) && p in LeafPaths(tree)
    ensures |p| >= 1 && KeyOf(p) in FlatKeys(tree) && PathOf(KeyOf(p)) == p
  {
    LeafPathShape(tree, p);
    PlainPath(tree, p);
    PathKeyInverse(p);
  }

  /** All flat keys of a tree are top keys: leaves never lie on the way to leaves. */
  lemma FlatKeysAreTop(tree: Json, payload: Payload, k: string)
    requires tree.Obj? && tree.fields != map[] && Plain(tree)
    requires DottedOf(payload) == FlatKeys(tree) && k in FlatKeys(tree)
    ensures Top(DottedOf(payload), Obj(map[]), k)
  {
    FlatKeyFacts(tree, k);
    forall a | a in FlatKeys(tree) ensures IsDotted(a) && !(PathOf(a) < PathOf(k)) {
      FlatKeyFacts(tree, a);
      if PathOf(a) < PathOf(k) {
        SubShape(tree, PathOf(a), PathOf(k));
      }
    }
  }

  lemma {:induction false} NothingSkipped(payload: Payload, explicit: Json, keys: seq<string>)
    requires KeysOf(payload, keys) && Rebuild(payload, explicit, keys).skipped == []
    ensures Rebuild(payload, explicit, keys).repaired == keys
  {
    if keys != [] {
      var n := |keys| - 1;
      RebuildStep(payload, explicit, keys);
      NothingSkipped(payload, explicit, keys[..n]);
    }
  }

  /** Rebuilding the flat keys of a tree gives the tree back, with nothing skipped. */
  lemma RebuildFlattened(tree: Json, payload: Payload, keys: seq<string>)
    requires tree.Obj? && tree.fields != map[] && Plain(tree)
    requires DottedOf(payload) == FlatKeys(tree) && forall k :: k in FlatKeys(tree) ==> payload[k] == Flatten(tree)[k]
    requires SortedEnum(keys, DottedOf(payload)) && KeysOf(payload, keys)
    ensures Rebuild(payload, Obj(map[]), keys) == Rebuilt(tree, keys, [])
  {
    var explicit, all := Obj(map[]), DottedOf(payload);
    var r, tops := Rebuild(payload, explicit, keys), Tops(all, explicit, keys);
    assert r.skipped != [] ==> r.skipped[0] in r.skipped;
    AllStarted(payload, explicit, keys);
    LoopInvariant(payload, explicit, all, keys);
    RepairMembers(payload, explicit, keys);
    RepairPartitions(payload, explicit, keys);
    forall k | k in keys ensures k in tops {
      FlatKeysAreTop(tree, payload, k);
    }
    NothingSkipped(payload, explicit, keys);
    forall q ensures ShapeAt(r.tree, q) == ShapeAt(tree, q) {
      FlatShape(tree, payload, keys, r.tree, q);
    }
    SameShape(r.tree, tree);
  }

  lemma FlatShape(tree: Json, payload: Payload, keys: seq<string>, t: Json, q: Path)
    requires tree.Obj? && tree.fields != map[] && Plain(tree)
    requires DottedOf(payload) == FlatKeys(tree) && forall k :: k in FlatKeys(tree) ==> payload[k] == Flatten(tree)[k]
    requires forall k :: k in keys <==> k in FlatKeys(tree)
    requires forall k :: k in keys ==> k in Tops(DottedOf(payload), Obj(map[]), keys)
    requires Overlaid(payload, Obj(map[]), Tops(DottedOf(payload), Obj(map[]), keys), t)
    requires Undisturbed(payload, Tops(DottedOf(payload), Obj(map[]), keys), t)
    ensures ShapeAt(t, q) == ShapeAt(tree, q)
  {
    var tops := Tops(DottedOf(payload), Obj(map[]), keys);
    assert tops == FlatKeys(tree);
    if exists b :: b in tops && IsDotted(b) && PathOf(b) <= q {
      var b :| b in tops && IsDotted(b) && PathOf(b) <= q;
      FlatKeyFacts(tree, b);
      SubShape(tree, PathOf(b), q);
    } else {
      assert !Below(tops, q);
      assert !Named(tops, q);
      NodeAboveLeaves(tree, q);
      assert q == [] ==> ShapeAt(tree, q) == Node;
    }
  }

  /** Off the flat keys' paths, a path is an object node exactly when a flat key lies below it. */
  lemma NodeAboveLeaves(tree: Json, q: Path)
    requires tree.Obj? && tree.fields != map[] && Plain(tree)
    requires !exists b :: b in FlatKeys(tree) && IsDotted(b) && PathOf(b) <= q
    ensures ShapeAt(tree, q) == if Above(FlatKeys(tree), q) then Node else Absent
  {
    if ShapeAt(tree, q) != Absent {
      var p := LeafBelow(tree, q);
      FlatPathFacts(tree, p);
      assert !(PathOf(KeyOf(p)) <= q);
      LeafPathShape(tree, q);
      SubShape(tree, q, q);
      if q in LeafPaths(tree) {
        FlatPathFacts(tree, q);
      }
    }
    forall a | a in FlatKeys(tree) && IsDotted(a) && q < PathOf(a) ensures ShapeAt(tree, q) != Absent {
      FlatKeyFacts(tree, a);
      if ShapeAt(tree, q) == Absent {
        AbsentBelow(tree, q, PathOf(a));
      }
    }
  }

  lemma FlatDomain(tree: Json)
    requires tree.Obj? && tree.fields != map[] && Plain(tree)
    ensures Flatten(tree).Keys == FlatKeys(tree) != {}
    ensures forall k :: k in FlatKeys(tree) ==> IsDotted(k)
  {
    forall k | k in FlatKeys(tree) ensures IsDotted(k) {
      FlatKeyFacts(tree, k);
    }
    var p := LeafBelow(tree, []);
    FlatPathFacts(tree, p);
  }

  lemma DottedWithTool(flat: Payload, tool: Json)
    requires forall k :: k in flat ==> IsDotted(k)
    ensures var payload := flat["tool" := tool];
            && DottedOf(payload) == flat.Keys
            && (forall k :: k in flat ==> payload[k] == flat[k])
            && (map k | k in payload && !IsDotted(k) :: payload[k]) == map["tool" := tool]
            && "arguments" !in payload
  {
    assert !IsDotted("tool");
    assert !IsDotted("arguments");
  }

  /** Only reserved siblings: nothing to absorb. */
  lemma NothingToAbsorb(tree: Json, tool: Json)
    requires tree.Obj?
    ensures var stripped: Payload := map["tool" := tool];
            && Absorb(tree, stripped) == tree
            && (map k | k in stripped && k in RESERVED :: stripped[k]) == stripped
            && stripped["arguments" := tree] == map["tool" := tool, "arguments" := tree]
  {
    var stripped: Payload := map["tool" := tool];
    assert (map k | k in stripped && k !in RESERVED :: stripped[k]) == map[];
  }

  /** Round trip: a call whose arguments were flattened is repaired to exactly the original arguments. */
  lemma RoundTrip(tree: Json, tool: Json, keys: seq<string>)
    requires tree.Obj? && tree.fields != map[] && Plain(tree)
    requires SortedEnum(keys, FlatKeys(tree))
    ensures var payload := Flatten(tree)["tool" := tool];
            && KeysOf(payload, keys)
            && Reconstruct(payload, keys) == Repair(map["tool" := tool, "arguments" := tree], keys, [])
  {
    var payload := Flatten(tree)["tool" := tool];
    FlatDomain(tree);
    DottedWithTool(Flatten(tree), tool);
    RebuildFlattened(tree, payload, keys);
    var k :| k in FlatKeys(tree);
    assert k in keys;
    NothingToAbsorb(tree, tool);
  }

  // ---------------------------------------------------------------------
  // The policy for a whole payload
  // ---------------------------------------------------------------------

  /** A bare sibling stays where it is, or joins new arguments unless a repaired key took its name. */
  ghost predicate SiblingKept(payload: Payload, r: Repair, k: string)
    requires k in payload
  {
    || (k in r.payload && r.payload[k] == payload[k])
    || ("arguments" in r.payload && r.payload["arguments"].Obj? && k in r.payload["arguments"].fields &&
        (r.payload["arguments"].fields[k] == payload[k] || TookName(r, k)))
  }

  ghost predicate TookName(r: Repair, k: string) {
    exists d :: d in r.repaired && IsDotted(d) && PathOf(d)[0] == k
  }

  /** For every payload: the dotted keys are split into repaired and skipped, none is left in the envelope,
      everything in explicit object arguments is still found, and no bare sibling is lost. */
  lemma ConflictPolicy(payload: Payload, keys: seq<string>)
    requires SortedEnum(keys, DottedOf(payload)) && KeysOf(payload, keys)
    ensures var r := Reconstruct(payload, keys);
            && multiset(r.repaired) + multiset(r.skipped) == multiset(keys)
            && (forall k :: k in r.payload ==> !IsDotted(k))
            && (forall k :: k in payload && !IsDotted(k) && k != "arguments" ==> SiblingKept(payload, r, k))
            && ("arguments" in payload && !payload["arguments"].Null? ==>
                  "arguments" in r.payload &&
                  forall q :: ShapeAt(payload["arguments"], q) != Absent ==>
                    ShapeAt(r.payload["arguments"], q) == ShapeAt(payload["arguments"], q))
  {
    assert !IsDotted("arguments");
    if keys == [] {
      forall k | k in payload ensures !IsDotted(k) {
        assert k in DottedOf(payload) <==> k in keys;
      }
    } else if Repairable(payload) {
      var explicit := ExplicitOf(payload);
      RepairCounts(payload, explicit, keys);
      forall q | ShapeAt(explicit, q) != Absent
        ensures ShapeAt(Rebuild(payload, explicit, keys).tree, q) == ShapeAt(explicit, q)
      {
        ExplicitWins(payload, explicit, keys, q);
      }
      forall k | k in payload && !IsDotted(k) && k != "arguments"
        ensures SiblingKept(payload, Reconstruct(payload, keys), k)
      {
        AbsorbedOrTaken(payload, keys, k);
      }
    }
  }

  lemma AbsorbedOrTaken(payload: Payload, keys: seq<string>, k: string)
    requires KeysOf(payload, keys) && keys != [] && Repairable(payload)
    requires k in payload && !IsDotted(k) && k != "arguments"
    ensures SiblingKept(payload, Reconstruct(payload, keys), k)
  {
    var r := Rebuild(payload, ExplicitOf(payload), keys);
    RootStaysObject(payload, ExplicitOf(payload), keys);
    if "arguments" !in payload && r.repaired != [] && k !in RESERVED && k in r.tree.fields {
      var d := WhoTook(payload, ExplicitOf(payload), keys, k);
    }
  }

  lemma {:induction false} RootStaysObject(payload: Payload, explicit: Json, keys: seq<string>)
    requires KeysOf(payload, keys) && explicit.Obj?
    ensures Rebuild(payload, explicit, keys).tree.Obj?
  {
    if keys != [] {
      assert forall a :: a in keys[..|keys| - 1] ==> a in keys;
      RootStaysObject(payload, explicit, keys[..|keys| - 1]);
    }
  }

  /** A name the explicit arguments did not have was introduced by a repaired key. */
  lemma {:induction false} WhoTook(payload: Payload, explicit: Json, keys: seq<string>, k: string) returns (d: string)
    requires KeysOf(payload, keys) && explicit.Obj? && k !in explicit.fields
    requires Rebuild(payload, explicit, keys).tree.Obj? && k in Rebuild(payload, explicit, keys).tree.fields
    ensures d in Rebuild(payload, explicit, keys).repaired && IsDotted(d) && PathOf(d)[0] == k
  {
    var n := |keys| - 1;
    assert forall a :: a in keys[..n] ==> a in keys;
    var before := Rebuild(payload, explicit, keys[..n]);
    RootStaysObject(payload, explicit, keys[..n]);
    if k in before.tree.fields {
      d := WhoTook(payload, explicit, keys[..n], k);
    } else {
      d := keys[n];
    }
  }

  // ---------------------------------------------------------------------
  // Inside a dotted object the same repair runs again
  // ---------------------------------------------------------------------

  ghost predicate Under(b: string, k: string) {
    IsDotted(b) && IsDotted(k) && PathOf(b) < PathOf(k)
  }

  /** The key for the part of the path of `k` below that of `b`. */
  function InnerKey(b: string, k: string): (ik: string)
    requires Under(b, k)
    ensures IsDotted(ik)
  {
    KeyOf(PathOf(k)[|PathOf(b)|..])
  }

  lemma InnerPath(b: string, k: string)
    requires Under(b, k)
    ensures PathOf(InnerKey(b, k)) == PathOf(k)[|PathOf(b)|..]
    ensures KeyOf(PathOf(b) + PathOf(InnerKey(b, k))) == k
  {
    KeyPathInverse(k);
    PathKeyInverse(PathOf(k)[|PathOf(b)|..]);
    assert PathOf(k) == PathOf(b) + PathOf(k)[|PathOf(b)|..];
  }

  ghost function InnerSet(payload: Payload, b: string): set<string> {
    set k | k in payload && Under(b, k) :: InnerKey(b, k)
  }

  lemma OuterKey(payload: Payload, b: string, ik: string)
    requires IsDotted(b) && ik in InnerSet(payload, b)
    ensures IsDotted(ik) && KeyOf(PathOf(b) + PathOf(ik)) in payload
  {
    var k :| k in payload && Under(b, k) && InnerKey(b, k) == ik;
    InnerPath(b, k);
  }

  /** The values of the keys below `b`, under the rest of their paths. */
  ghost function PayloadUnder(payload: Payload, b: string): Payload
    requires IsDotted(b)
  {
    map ik | ik in InnerSet(payload, b) :: OuterKey(payload, b, ik); payload[KeyOf(PathOf(b) + PathOf(ik))]
  }

  lemma UnderValue(payload: Payload, b: string, k: string)
    requires k in payload && Under(b, k)
    ensures InnerKey(b, k) in PayloadUnder(payload, b) && PayloadUnder(payload, b)[InnerKey(b, k)] == payload[k]
  {
    InnerPath(b, k);
    assert InnerKey(b, k) in InnerSet(payload, b);
  }

  /** The keys below `b`, in order. */
  ghost function KeysUnder(keys: seq<string>, b: string): seq<string> {
    if keys == [] then []
    else
      var n := |keys| - 1;
      if Under(b, keys[n]) then KeysUnder(keys[..n], b) + [InnerKey(b, keys[n])] else KeysUnder(keys[..n], b)
  }

  lemma {:induction false} KeysUnderOf(payload: Payload, keys: seq<string>, b: string)
    requires KeysOf(payload, keys) && IsDotted(b)
    ensures KeysOf(PayloadUnder(payload, b), KeysUnder(keys, b))
    ensures (forall k :: k in keys ==> !Under(b, k)) ==> KeysUnder(keys, b) == []
  {
    if keys != [] {
      var n := |keys| - 1;
      KeysInit(payload, keys);
      KeysUnderOf(payload, keys[..n], b);
      assert keys[n] in keys;
      if Under(b, keys[n]) {
        UnderValue(payload, b, keys[n]);
      }
    }
  }

  lemma {:induction false} FreeBelow(t: Json, pb: Path, p: Path)
    requires ShapeAt(t, pb) != Absent && pb < p
    ensures Free(t, p) <==> Free(Sub(t, pb), p[|pb|..])
    decreases |pb|
  {
    if pb != [] {
      PrefixTails(pb, p);
      FreeBelow(t.fields[pb[0]], pb[1..], p[1..]);
      assert p[1..][|pb| - 1..] == p[|pb|..];
    }
  }

  /** Inserting below a path is inserting into what is there; elsewhere it is left alone. */
  lemma {:induction false} SubInsert(t: Json, p: Path, v: Json, pb: Path)
    requires Free(t, p) && ShapeAt(t, pb) != Absent
    ensures ShapeAt(Insert(t, p, v), pb) != Absent
    ensures pb < p ==> Free(Sub(t, pb), p[|pb|..]) && Sub(Insert(t, p, v), pb) == Insert(Sub(t, pb), p[|pb|..], v)
    ensures !(pb < p) ==> Sub(Insert(t, p, v), pb) == Sub(t, pb)
    decreases |pb|
  {
    if pb != [] && pb[0] == p[0] {
      PrefixTails(pb, p);
      SubInsert(t.fields[p[0]], p[1..], v, pb[1..]);
      assert pb < p ==> p[1..][|pb| - 1..] == p[|pb|..];
    } else if pb == [] {
      assert p[|pb|..] == p;
    }
  }

  lemma {:induction false} SubNest(p: Path, v: Json)
    ensures ShapeAt(Nest(p, v), p) != Absent && Sub(Nest(p, v), p) == v
  {
    if p != [] {
      SubNest(p[1..], v);
    }
  }

  lemma {:induction false} SubInserted(t: Json, p: Path, v: Json)
    requires Free(t, p)
    ensures ShapeAt(Insert(t, p, v), p) != Absent && Sub(Insert(t, p, v), p) == v
    decreases |p|
  {
    if p[0] in t.fields {
      SubInserted(t.fields[p[0]], p[1..], v);
    } else {
      SubNest(p[1..], v);
    }
  }

  /** What the repair leaves at a repaired key is the repair of that key's own value by the keys below it. */
  ghost predicate RepairedInside(payload: Payload, r: Rebuilt, b: string, inner: Rebuilt, keys: seq<string>)
    requires IsDotted(b)
  {
    && ShapeAt(r.tree, PathOf(b)) != Absent && Sub(r.tree, PathOf(b)) == inner.tree
    && forall k :: k in keys && Under(b, k) ==> (k in r.repaired <==> InnerKey(b, k) in inner.repaired)
  }

  lemma {:induction false} RepairInside(payload: Payload, explicit: Json, keys: seq<string>, b: string)
    requires KeysOf(payload, keys) && Sorted(keys) && b in Rebuild(payload, explicit, keys).repaired
    ensures b in payload && IsDotted(b) && WellFormed(PathOf(b))
    ensures KeysOf(PayloadUnder(payload, b), KeysUnder(keys, b))
    ensures RepairedInside(payload, Rebuild(payload, explicit, keys), b,
                           Rebuild(PayloadUnder(payload, b), payload[b], KeysUnder(keys, b)), keys)
  {
    var n := |keys| - 1;
    var init, k := keys[..n], keys[n];
    RebuildStep(payload, explicit, keys);
    RepairMembers(payload, explicit, init);
    RepairMembers(payload, explicit, keys);
    assert b in keys;
    KeysUnderOf(payload, keys, b);
    var before := Rebuild(payload, explicit, init);
    assert forall a :: a in init ==> Less(a, k);
    if b in init {
      assert b != k by {
        LessTotal(k, k);
      }
      RepairInside(payload, explicit, init, b);
      InsideStep(payload, explicit, keys, b);
    } else {
      NothingBefore(init, b);
      KeysUnderOf(payload, init, b);
      SubInserted(before.tree, PathOf(b), payload[b]);
    }
  }

  /** Keys below `b` sort after it. */
  lemma NothingBefore(init: seq<string>, b: string)
    requires IsDotted(b) && (forall a :: a in init ==> Less(a, b))
    ensures forall a :: a in init ==> !Under(b, a)
  {
    forall a | a in init ensures !Under(b, a) {
      if Under(b, a) {
        PrefixSortsFirst(b, a);
        LessTotal(a, b);
      }
    }
  }

  /** One key treated by both repairs: `r` the outer, `inner` the one at `b`. */
  lemma BothNext(payload: Payload, r: Rebuilt, inside: Payload, inner: Rebuilt, b: string, k: string)
    requires IsDotted(b) && WellFormed(PathOf(b)) && Under(b, k) && k in payload
    requires InnerKey(b, k) in inside && inside[InnerKey(b, k)] == payload[k]
    requires ShapeAt(r.tree, PathOf(b)) != Absent && Sub(r.tree, PathOf(b)) == inner.tree
    ensures var r', inner' := Next(payload, r, k), Next(inside, inner, InnerKey(b, k));
            && ShapeAt(r'.tree, PathOf(b)) != Absent && Sub(r'.tree, PathOf(b)) == inner'.tree
            && (r'.repaired == r.repaired + [k] <==> inner'.repaired == inner.repaired + [InnerKey(b, k)])
  {
    var pb, p := PathOf(b), PathOf(k);
    FreeBelow(r.tree, pb, p);
    InnerPath(b, k);
    SplitWellFormed(p, |pb|);
    assert p[..|pb|] == pb;
    if Free(r.tree, p) {
      SubInsert(r.tree, p, payload[k], pb);
    }
  }

  lemma OuterNext(payload: Payload, r: Rebuilt, b: string, k: string)
    requires IsDotted(b) && IsDotted(k) && !Under(b, k) && k in payload && ShapeAt(r.tree, PathOf(b)) != Absent
    ensures var r' := Next(payload, r, k);
            ShapeAt(r'.tree, PathOf(b)) != Absent && Sub(r'.tree, PathOf(b)) == Sub(r.tree, PathOf(b))
  {
    if Free(r.tree, PathOf(k)) {
      SubInsert(r.tree, PathOf(k), payload[k], PathOf(b));
    }
  }

  lemma InsideStep(payload: Payload, explicit: Json, keys: seq<string>, b: string)
    requires KeysOf(payload, keys) && Sorted(keys) && keys != [] && KeysOf(payload, keys[..|keys| - 1])
    requires b in payload && IsDotted(b) && WellFormed(PathOf(b))
    requires KeysOf(PayloadUnder(payload, b), KeysUnder(keys, b))
    requires KeysOf(PayloadUnder(payload, b), KeysUnder(keys[..|keys| - 1], b))
    requires var init := keys[..|keys| - 1];
             RepairedInside(payload, Rebuild(payload, explicit, init), b,
                            Rebuild(PayloadUnder(payload, b), payload[b], KeysUnder(init, b)), init)
    ensures RepairedInside(payload, Rebuild(payload, explicit, keys), b,
                           Rebuild(PayloadUnder(payload, b), payload[b], KeysUnder(keys, b)), keys)
  {
    var n := |keys| - 1;
    var init, k, inside := keys[..n], keys[n], PayloadUnder(payload, b);
    var r, inner := Rebuild(payload, explicit, init), Rebuild(inside, payload[b], KeysUnder(init, b));
    RebuildStep(payload, explicit, keys);
    LastIsNew(payload, explicit, keys);
    if Under(b, k) {
      InnerStep(payload, keys, b);
      NewInside(payload, init, b, k);
      BothNext(payload, r, inside, inner, b, k);
    } else {
      OuterNext(payload, r, b, k);
    }
    AllMembers(Next(payload, r, k), r, Rebuild(inside, payload[b], KeysUnder(keys, b)), inner, b, k, init);
  }

  lemma AllMembers(r': Rebuilt, r: Rebuilt, inner': Rebuilt, inner: Rebuilt, b: string, k: string, init: seq<string>)
    requires k !in r.repaired && (r'.repaired == r.repaired || r'.repaired == r.repaired + [k])
    requires forall a :: a in init && Under(b, a) ==> (a in r.repaired <==> InnerKey(b, a) in inner.repaired)
    requires Under(b, k) ==> InnerKey(b, k) !in inner.repaired
    requires inner'.repaired ==
             if Under(b, k) && r'.repaired != r.repaired then inner.repaired + [InnerKey(b, k)] else inner.repaired
    ensures forall a :: a in init + [k] && Under(b, a) ==> (a in r'.repaired <==> InnerKey(b, a) in inner'.repaired)
  {
    forall a | a in init + [k] && Under(b, a) ensures a in r'.repaired <==> InnerKey(b, a) in inner'.repaired {
      InsideMember(r, r', inner, inner', b, k, a);
    }
  }

  lemma LastIsNew(payload: Payload, explicit: Json, keys: seq<string>)
    requires KeysOf(payload, keys) && Sorted(keys) && keys != [] && KeysOf(payload, keys[..|keys| - 1])
    ensures var n := |keys| - 1;
            keys[n] !in keys[..n] && keys[n] !in Rebuild(payload, explicit, keys[..n]).repaired
  {
    var n := |keys| - 1;
    LessTotal(keys[n], keys[n]);
    RepairMembers(payload, explicit, keys[..n]);
  }

  lemma SplitWellFormed(p: Path, n: nat)
    requires n <= |p|
    ensures WellFormed(p) <==> WellFormed(p[..n]) && WellFormed(p[n..])
  {
    assert p == p[..n] + p[n..];
  }

  /** The inner repair takes a step exactly for a key below `b`. */
  lemma InnerStep(payload: Payload, keys: seq<string>, b: string)
    requires KeysOf(payload, keys) && keys != [] && IsDotted(b) && Under(b, keys[|keys| - 1]) && b in payload
    requires KeysOf(PayloadUnder(payload, b), KeysUnder(keys, b))
    requires KeysOf(PayloadUnder(payload, b), KeysUnder(keys[..|keys| - 1], b))
    ensures var k, inside := keys[|keys| - 1], PayloadUnder(payload, b);
            && k in payload && InnerKey(b, k) in inside && inside[InnerKey(b, k)] == payload[k]
            && Rebuild(inside, payload[b], KeysUnder(keys, b)) ==
               Next(inside, Rebuild(inside, payload[b], KeysUnder(keys[..|keys| - 1], b)), InnerKey(b, k))
  {
    var n := |keys| - 1;
    assert keys[n] in keys;
    UnderValue(payload, b, keys[n]);
    var some := KeysUnder(keys, b);
    RebuildStep(PayloadUnder(payload, b), payload[b], some);
    assert some[..|some| - 1] == KeysUnder(keys[..n], b);
  }

  lemma InnerInjective(b: string, k: string, l: string)
    requires Under(b, k) && Under(b, l) && InnerKey(b, k) == InnerKey(b, l)
    ensures k == l
  {
    InnerPath(b, k);
    InnerPath(b, l);
  }

  lemma {:induction false} KeysUnderCome(keys: seq<string>, b: string, ik: string) returns (k: string)
    requires ik in KeysUnder(keys, b)
    ensures k in keys && Under(b, k) && InnerKey(b, k) == ik
  {
    var n := |keys| - 1;
    if Under(b, keys[n]) && InnerKey(b, keys[n]) == ik {
      k := keys[n];
    } else {
      k := KeysUnderCome(keys[..n], b, ik);
    }
  }

  /** A key not handled yet is unknown to the inner repair too. */
  lemma NewInside(payload: Payload, keys: seq<string>, b: string, k: string)
    requires b in payload && IsDotted(b) && Under(b, k) && k !in keys
    requires KeysOf(PayloadUnder(payload, b), KeysUnder(keys, b))
    ensures InnerKey(b, k) !in Rebuild(PayloadUnder(payload, b), payload[b], KeysUnder(keys, b)).repaired
  {
    RepairMembers(PayloadUnder(payload, b), payload[b], KeysUnder(keys, b));
    if InnerKey(b, k) in KeysUnder(keys, b) {
      var l := KeysUnderCome(keys, b, InnerKey(b, k));
      InnerInjective(b, k, l);
    }
  }

  /** Which keys below `b` were repaired, after one more key `k` that both repairs treat alike. */
  lemma InsideMember(r: Rebuilt, r': Rebuilt, inner: Rebuilt, inner': Rebuilt, b: string, k: string, a: string)
    requires Under(b, a) && k !in r.repaired && (a != k ==> (a in r.repaired <==> InnerKey(b, a) in inner.repaired))
    requires r'.repaired == r.repaired || r'.repaired == r.repaired + [k]
    requires Under(b, k) ==> InnerKey(b, k) !in inner.repaired
    requires inner'.repaired ==
             if Under(b, k) && r'.repaired != r.repaired then inner.repaired + [InnerKey(b, k)] else inner.repaired
    ensures a in r'.repaired <==> InnerKey(b, a) in inner'.repaired
  {
    if Under(b, k) && InnerKey(b, a) == InnerKey(b, k) {
      InnerInjective(b, a, k);
    }
  }

  /** Top keys are repaired, ineligible ones skipped, and a key below a top key is repaired exactly when
      the repair of that key's own value, with the keys below it, repairs it: the input decides every winner. */
  lemma WinnersDecided(payload: Payload, explicit: Json, keys: seq<string>, k: string) returns (b: string)
    requires SortedEnum(keys, DottedOf(payload)) && explicit.Obj? && KeysOf(payload, keys) && k in keys
    ensures Top(DottedOf(payload), explicit, k) ==> k in Rebuild(payload, explicit, keys).repaired
    ensures !Eligible(explicit, k) ==> k in Rebuild(payload, explicit, keys).skipped
    ensures !Eligible(explicit, k) ==> k !in Rebuild(payload, explicit, keys).repaired
    ensures Eligible(explicit, k) && !Top(DottedOf(payload), explicit, k) ==>
              && Top(DottedOf(payload), explicit, b) && Under(b, k) && b in payload
              && KeysOf(PayloadUnder(payload, b), KeysUnder(keys, b))
              && var inner := Rebuild(PayloadUnder(payload, b), payload[b], KeysUnder(keys, b));
                 k in Rebuild(payload, explicit, keys).repaired <==> InnerKey(b, k) in inner.repaired
  {
    TopKeysWin(payload, explicit, keys, k);
    if Eligible(explicit, k) && !Top(DottedOf(payload), explicit, k) {
      b := TopAbove(DottedOf(payload), explicit, k);
      TopKeysWin(payload, explicit, keys, b);
      RepairInside(payload, explicit, keys, b);
    } else {
      b := k;
    }
  }

  // ---------------------------------------------------------------------
  // What the caller gets back
  // ---------------------------------------------------------------------

  /** Whatever is found along a path is not changed by a later insertion. */
  lemma InsertKeepsPresent(t: Json, p: Path, v: Json, q: Path)
    requires Free(t, p) && ShapeAt(t, q) != Absent
    ensures ShapeAt(Insert(t, p, v), q) == ShapeAt(t, q)
  {
    InsertShape(t, p, v, q);
    FreeShape(t, p);
    if p <= q {
      AbsentBelow(t, p, q);
    } else if q <= p {
      assert q == p[..|q|];
    }
  }

  /** A repaired key's whole value stands at its path in the rebuilt tree. */
  lemma {:induction false} ValueStands(payload: Payload, explicit: Json, keys: seq<string>, k: string, q: Path)
    requires KeysOf(payload, keys) && k in Rebuild(payload, explicit, keys).repaired
    ensures k in payload && IsDotted(k)
    ensures ShapeAt(payload[k], q) != Absent ==>
            ShapeAt(Rebuild(payload, explicit, keys).tree, PathOf(k) + q) == ShapeAt(payload[k], q)
  {
    var n := |keys| - 1;
    RepairMembers(payload, explicit, keys);
    RebuildStep(payload, explicit, keys);
    var r, p := Rebuild(payload, explicit, keys[..n]), PathOf(k) + q;
    if k in r.repaired {
      ValueStands(payload, explicit, keys[..n], k, q);
      if Free(r.tree, PathOf(keys[n])) && ShapeAt(r.tree, p) != Absent {
        InsertKeepsPresent(r.tree, PathOf(keys[n]), payload[keys[n]], p);
      }
    } else {
      InsertShape(r.tree, PathOf(k), payload[k], p);
      assert p[|PathOf(k)|..] == q;
    }
  }

  /** The path belongs to the key: it leads to its place or into its value. */
  ghost predicate Accounts(payload: Payload, k: string, q: Path) {
    && k in payload && IsDotted(k)
    && (q <= PathOf(k) || (PathOf(k) <= q && ShapeAt(payload[k], q[|PathOf(k)|..]) != Absent))
  }

  /** Nothing stands in the rebuilt tree that the explicit arguments or a repaired key did not bring. */
  lemma {:induction false} NothingInvented(payload: Payload, explicit: Json, keys: seq<string>, q: Path)
    requires KeysOf(payload, keys) && ShapeAt(Rebuild(payload, explicit, keys).tree, q) != Absent
    ensures ShapeAt(explicit, q) != Absent ||
            exists k :: k in Rebuild(payload, explicit, keys).repaired && Accounts(payload, k, q)
  {
    if keys != [] {
      var n := |keys| - 1;
      var init, p := keys[..n], PathOf(keys[n]);
      RebuildStep(payload, explicit, keys);
      var r := Rebuild(payload, explicit, init);
      if ShapeAt(r.tree, q) != Absent {
        NothingInvented(payload, explicit, init, q);
        if ShapeAt(explicit, q) == Absent {
          var k :| k in r.repaired && Accounts(payload, k, q);
          assert k in Rebuild(payload, explicit, keys).repaired;
        }
      } else {
        InsertShape(r.tree, p, payload[keys[n]], q);
        assert Accounts(payload, keys[n], q);
      }
    }
  }

  /** No dotted key, or `arguments` holding neither an object nor null: nothing is repaired. */
  lemma NothingToRepair(payload: Payload, keys: seq<string>)
    requires SortedEnum(keys, DottedOf(payload)) && KeysOf(payload, keys)
    requires keys == [] || ("arguments" in payload && payload["arguments"].Scalar?)
    ensures var r := Reconstruct(payload, keys);
            && r.repaired == [] && r.skipped == keys
            && (forall k :: k in r.payload <==> k in payload && !IsDotted(k))
            && (forall k :: k in r.payload ==> r.payload[k] == payload[k])
  {
    if keys == [] {
      forall k | k in payload ensures !IsDotted(k) {
        assert k in DottedOf(payload) <==> k in keys;
      }
    }
  }

  /** `arguments` is there and repairable: it becomes the rebuilt object and every other bare key stays as it is. */
  lemma ArgumentsRebuilt(payload: Payload, keys: seq<string>)
    requires KeysOf(payload, keys) && keys != [] && "arguments" in payload && !payload["arguments"].Scalar?
    ensures var r, explicit := Reconstruct(payload, keys), payload["arguments"];
            && (forall k :: k in r.payload <==> k in payload && !IsDotted(k))
            && (forall k :: k in r.payload && k != "arguments" ==> r.payload[k] == payload[k])
            && r.payload["arguments"] == Rebuild(payload, if explicit.Obj? then explicit else Obj(map[]), keys).tree
            && r.repaired == Rebuild(payload, if explicit.Obj? then explicit else Obj(map[]), keys).repaired
  {
    assert !IsDotted("arguments");
  }

  /** `arguments` is missing: with something repaired it becomes a new object that takes every bare sibling but
      `tool` in, rebuilt names first; with nothing repaired the bare keys stay as they are. */
  lemma ArgumentsCreated(payload: Payload, keys: seq<string>)
    requires KeysOf(payload, keys) && keys != [] && "arguments" !in payload
    ensures var r, tree := Reconstruct(payload, keys), Rebuild(payload, Obj(map[]), keys).tree;
            && r.repaired == Rebuild(payload, Obj(map[]), keys).repaired && tree.Obj?
            && (r.repaired == [] ==>
                  (forall k :: k in r.payload <==> k in payload && !IsDotted(k)) &&
                  forall k :: k in r.payload ==> r.payload[k] == payload[k])
            && (r.repaired != [] ==>
                  (forall k :: k in r.payload <==> k == "arguments" || (k == "tool" && k in payload)) &&
                  r.payload["arguments"].Obj? && Joined(payload, tree, r.payload["arguments"]))
            && ("tool" in payload ==> r.payload["tool"] == payload["tool"])
  {
    RootStaysObject(payload, Obj(map[]), keys);
    assert !IsDotted("tool") && !IsDotted("arguments");
  }

  /** `args` holds the entries of `tree`, and the bare siblings under the names that are free. */
  ghost predicate Joined(payload: Payload, tree: Json, args: Json)
    requires tree.Obj? && args.Obj?
  {
    && (forall k :: k in args.fields <==> k in tree.fields || (k in payload && !IsDotted(k) && k != "tool"))
    && (forall k :: k in args.fields ==> args.fields[k] == if k in tree.fields then tree.fields[k] else payload[k])
  }

  /** Every repaired key's value is in the arguments the caller gets back, complete and at its path. */
  lemma RepairedValuesArrive(payload: Payload, keys: seq<string>, k: string, q: Path)
    requires SortedEnum(keys, DottedOf(payload)) && KeysOf(payload, keys) && k in Reconstruct(payload, keys).repaired
    ensures var r := Reconstruct(payload, keys);
            && k in payload && IsDotted(k) && "arguments" in r.payload
            && ShapeAt(r.payload["arguments"], PathOf(k)) == ShapeAt(payload[k], [])
            && (ShapeAt(payload[k], q) != Absent ==>
                  ShapeAt(r.payload["arguments"], PathOf(k) + q) == ShapeAt(payload[k], q))
  {
    var r := Reconstruct(payload, keys);
    ArriveAt(payload, keys, k, []);
    assert PathOf(k) + [] == PathOf(k);
    if ShapeAt(payload[k], q) != Absent {
      ArriveAt(payload, keys, k, q);
    }
  }

  lemma ArriveAt(payload: Payload, keys: seq<string>, k: string, q: Path)
    requires SortedEnum(keys, DottedOf(payload)) && KeysOf(payload, keys) && k in Reconstruct(payload, keys).repaired
    ensures var r := Reconstruct(payload, keys);
            && k in payload && IsDotted(k) && "arguments" in r.payload
            && (ShapeAt(payload[k], q) != Absent ==>
                  ShapeAt(r.payload["arguments"], PathOf(k) + q) == ShapeAt(payload[k], q))
  {
    if keys == [] || !Repairable(payload) {
      NothingToRepair(payload, keys);
    } else if "arguments" in payload {
      ArgumentsRebuilt(payload, keys);
      ValueStands(payload, ExplicitOf(payload), keys, k, q);
    } else {
      ArgumentsCreated(payload, keys);
      ValueStands(payload, Obj(map[]), keys, k, q);
    }
  }

  /** A key with an empty segment is skipped, whatever else the payload holds. */
  lemma EmptySegmentsAreSkipped(payload: Payload, keys: seq<string>, k: string, i: nat)
    requires SortedEnum(keys, DottedOf(payload)) && KeysOf(payload, keys) && k in keys
    requires i < |PathOf(k)| && PathOf(k)[i] == ""
    ensures k in Reconstruct(payload, keys).skipped && k !in Reconstruct(payload, keys).repaired
  {
    if Repairable(payload) {
      TopKeysWin(payload, ExplicitOf(payload), keys, k);
    }
  }
}
