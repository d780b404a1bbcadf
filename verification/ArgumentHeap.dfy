/**
 Argument repair as the program runs it: dicts are mutable objects reached
 through references, `_descend` walks and extends them in place, and dotted
 values are stored by reference.  `Look` follows a path of dict entries and
 `Holds` relates a slot to the immutable tree found there; the methods refine
 the functions of `ArgumentRepair` and say exactly when one of the caller's
 dicts is written to.
 */
module ArgumentHeap {
  import opened Prelude
  import opened DottedKeys
  import opened ArgumentRepair

  datatype Slot = SNull | SScalar(text: string) | SRef(ref: nat)

  /** The dict objects, by reference; `next` is the first unused reference. */
  datatype Mem = Mem(cells: map<nat, map<string, Slot>>, next: nat)

  ghost predicate Closed(m: Mem) {
    && (forall c :: c in m.cells ==> c < m.next)
    && (forall c, k :: c in m.cells && k in m.cells[c] ==> Live(m, m.cells[c][k]))
  }

  ghost predicate Live(m: Mem, s: Slot) {
    s.SRef? ==> s.ref in m.cells
  }

  ghost function Look(m: Mem, s: Slot, p: Path): Option<Slot>
    decreases |p|
  {
    if p == [] then Some(s)
    else if s.SRef? && s.ref in m.cells && p[0] in m.cells[s.ref] then Look(m, m.cells[s.ref][p[0]], p[1..])
    else None
  }

  ghost function SlotShape(s: Option<Slot>): Shape {
    match s
    case None => Absent
    case Some(SNull) => Value(Null)
    case Some(SScalar(text)) => Value(Scalar(text))
    case Some(SRef(_)) => Node
  }

  /** Slot `s` holds the tree `j`. */
  ghost predicate Holds(m: Mem, s: Slot, j: Json) {
    forall q :: SlotShape(Look(m, s, q)) == ShapeAt(j, q)
  }

  ghost predicate Reaches(m: Mem, s: Slot, c: nat) {
    exists q :: Look(m, s, q) == Some(SRef(c))
  }

  /** No dict is found at two places of one tree. */
  ghost predicate Unshared(m: Mem, s: Slot) {
    forall p, q, c :: Look(m, s, p) == Some(SRef(c)) && Look(m, s, q) == Some(SRef(c)) ==> p == q
  }

  /** Two slots have no dict in common. */
  ghost predicate Apart(m: Mem, s: Slot, t: Slot) {
    forall c :: Reaches(m, s, c) ==> !Reaches(m, t, c)
  }

  ghost predicate SameLook(m: Mem, m': Mem, s: Slot) {
    forall q :: Look(m', s, q) == Look(m, s, q)
  }

  lemma {:induction false} LookLive(m: Mem, s: Slot, p: Path)
    requires Closed(m) && Live(m, s) && Look(m, s, p).Some?
    ensures Live(m, Look(m, s, p).value)
    decreases |p|
  {
    if p != [] {
      LookLive(m, m.cells[s.ref][p[0]], p[1..]);
    }
  }

  lemma {:induction false} LookThen(m: Mem, s: Slot, a: Path, b: Path)
    ensures Look(m, s, a + b) == if Look(m, s, a).Some? then Look(m, Look(m, s, a).value, b) else None
    decreases |a|
  {
    if a == [] {
      assert a + b == b;
    } else if s.SRef? && s.ref in m.cells && a[0] in m.cells[s.ref] {
      LookThen(m, m.cells[s.ref][a[0]], a[1..], b);
      assert (a + b)[1..] == a[1..] + b;
    }
  }

  // ---------------------------------------------------------------------
  // Allocating a dict, adding an entry
  // ---------------------------------------------------------------------

  function Alloc(m: Mem, cell: map<string, Slot>): Mem {
    Mem(m.cells[m.next := cell], m.next + 1)
  }

  function Write(m: Mem, c: nat, k: string, v: Slot): Mem
    requires c in m.cells
  {
    m.(cells := m.cells[c := m.cells[c][k := v]])
  }

  /** Unless it reaches a changed dict, a slot looks the same as before. */
  lemma {:induction false} LookFrame(m: Mem, m': Mem, s: Slot, q: Path)
    requires Closed(m) && Live(m, s)
    requires forall c :: c in m.cells && Reaches(m, s, c) ==> c in m'.cells && m'.cells[c] == m.cells[c]
    ensures Look(m', s, q) == Look(m, s, q)
    decreases |q|
  {
    if q != [] && s.SRef? {
      assert Look(m, s, []) == Some(s) && Reaches(m, s, s.ref);
      if q[0] in m.cells[s.ref] {
        var t := m.cells[s.ref][q[0]];
        forall c | Reaches(m, t, c) ensures Reaches(m, s, c) {
          var x :| Look(m, t, x) == Some(SRef(c));
          assert ([q[0]] + x)[1..] == x;
          assert Look(m, s, [q[0]] + x) == Some(SRef(c));
        }
        LookFrame(m, m', t, q[1..]);
      }
    }
  }

  lemma Framed(m: Mem, m': Mem, s: Slot)
    requires Closed(m) && Live(m, s)
    requires forall c :: c in m.cells && Reaches(m, s, c) ==> c in m'.cells && m'.cells[c] == m.cells[c]
    ensures SameLook(m, m', s)
  {
    forall q ensures Look(m', s, q) == Look(m, s, q) {
      LookFrame(m, m', s, q);
    }
  }

  /** Off the new entry's path, a walk from the root is unchanged. */
  lemma {:induction false} OffPath(m: Mem, s: Slot, p: Path, c: nat, k: string, v: Slot, a: Path, q: Path)
    requires Unshared(m, s) && c in m.cells && Look(m, s, p) == Some(SRef(c)) && k !in m.cells[c]
    requires Look(m, s, a).Some? && !(p + [k] <= a + q)
    ensures Look(Write(m, c, k, v), Look(m, s, a).value, q) == Look(m, Look(m, s, a).value, q)
    decreases |q|
  {
    var t := Look(m, s, a).value;
    if q != [] && t.SRef? && t.ref in m.cells {
      if t.ref == c {
        assert a == p;
        assert q[0] == k ==> p + [k] <= a + q;
      }
      if q[0] in m.cells[t.ref] {
        LookThen(m, s, a, [q[0]]);
        assert Look(m, t, [q[0]]) == Some(m.cells[t.ref][q[0]]);
        assert a + [q[0]] + q[1..] == a + q;
        OffPath(m, s, p, c, k, v, a + [q[0]], q[1..]);
      }
    }
  }

  lemma OnPath(m: Mem, s: Slot, p: Path, c: nat, k: string, v: Slot, rest: Path)
    requires Closed(m) && Live(m, v)
    requires Unshared(m, s) && c in m.cells && Look(m, s, p) == Some(SRef(c)) && k !in m.cells[c]
    requires !Reaches(m, v, c)
    ensures Look(Write(m, c, k, v), s, p + ([k] + rest)) == Look(m, v, rest)
  {
    var m' := Write(m, c, k, v);
    assert Look(m', s, p) == Some(SRef(c)) by {
      assert |p + [k]| > |[] + p| && [] + p == p;
      OffPath(m, s, p, c, k, v, [], p);
    }
    LookThen(m', s, p, [k] + rest);
    assert ([k] + rest)[1..] == rest;
    LookFrame(m, m', v, rest);
  }

  /** Adding an entry to the dict at the end of `p` changes the tree at `p + [k]` only. */
  lemma WriteLook(m: Mem, s: Slot, p: Path, c: nat, k: string, v: Slot, q: Path)
    requires Closed(m) && Live(m, v)
    requires Unshared(m, s) && c in m.cells && Look(m, s, p) == Some(SRef(c)) && k !in m.cells[c]
    requires !Reaches(m, v, c)
    ensures Look(Write(m, c, k, v), s, q) ==
            if p + [k] <= q then Look(m, v, q[|p| + 1..]) else Look(m, s, q)
  {
    if p + [k] <= q {
      OnPath(m, s, p, c, k, v, q[|p| + 1..]);
      SplitAfter(p, k, q);
    } else {
      assert [] + q == q && Look(m, s, []) == Some(s);
      OffPath(m, s, p, c, k, v, [], q);
    }
  }

  lemma SplitAfter(p: Path, k: string, q: Path)
    requires p + [k] <= q
    ensures q == p + ([k] + q[|p| + 1..])
  {
  }

  lemma WriteKeepsUnshared(m: Mem, s: Slot, p: Path, c: nat, k: string, v: Slot)
    requires Closed(m) && Live(m, v)
    requires Unshared(m, s) && c in m.cells && Look(m, s, p) == Some(SRef(c)) && k !in m.cells[c]
    requires Unshared(m, v) && Apart(m, s, v)
    ensures Unshared(Write(m, c, k, v), s)
  {
    var m' := Write(m, c, k, v);
    assert Reaches(m, s, c);
    forall a, b, d | Look(m', s, a) == Some(SRef(d)) && Look(m', s, b) == Some(SRef(d)) ensures a == b {
      WriteLook(m, s, p, c, k, v, a);
      WriteLook(m, s, p, c, k, v, b);
      if p + [k] <= a && p + [k] <= b {
        assert a == p + [k] + a[|p| + 1..] && b == p + [k] + b[|p| + 1..];
      } else if p + [k] <= a {
        assert Reaches(m, v, d) && Reaches(m, s, d);
      } else if p + [k] <= b {
        assert Reaches(m, v, d) && Reaches(m, s, d);
      }
    }
  }

  // ---------------------------------------------------------------------
  // _descend
  // ---------------------------------------------------------------------

  /** Between `m0` and `m` the only change to the dicts of `m0` is the new key `k` of dict `x`. */
  ghost predicate GrewAt(m0: Mem, m: Mem, x: nat, k: string) {
    && x in m0.cells && k !in m0.cells[x]
    && (forall d :: d in m0.cells ==> d in m.cells && (d != x ==> m.cells[d] == m0.cells[d]))
    && k in m.cells[x] && m.cells[x] == m0.cells[x][k := m.cells[x][k]]
  }

  ghost predicate IsNew(m0: Mem, m: Mem, s: Option<Slot>) {
    s.Some? && s.value.SRef? && m0.next <= s.value.ref < m.next
  }

  /** `m` is `m0` with the dicts along `path` beyond its first `n` segments created, `c` the last. */
  ghost predicate Descended(m0: Mem, m: Mem, root: nat, path: Path, n: nat, c: nat) {
    var r := SRef(root);
    && n <= |path| && Closed(m) && Unshared(m, r) && m0.next <= m.next
    && Look(m, r, path) == Some(SRef(c)) && c in m.cells
    && (forall q :: n < |q| && q <= path ==> IsNew(m0, m, Look(m, r, q)))
    && (forall q :: !(n < |q| && q <= path) ==> Look(m, r, q) == Look(m0, r, q))
    && (n == |path| ==> m == m0)
    && (n < |path| ==> m.cells[c] == map[] && Extended(m0, m, r, path, n))
  }

  /** The creation of new dicts on `path` began in the dict at its first `n` segments. */
  ghost predicate Extended(m0: Mem, m: Mem, r: Slot, path: Path, n: nat)
    requires n < |path|
  {
    exists x :: Look(m0, r, path[..n]) == Some(SRef(x)) && GrewAt(m0, m, x, path[n])
  }

  lemma AllocLook(m: Mem, cell: map<string, Slot>, s: Slot)
    requires Closed(m) && Live(m, s)
    ensures SameLook(m, Alloc(m, cell), s)
  {
    Framed(m, Alloc(m, cell), s);
  }

  function Create(m: Mem, c: nat, k: string): Mem
    requires c in m.cells
  {
    Write(Alloc(m, map[]), c, k, SRef(m.next))
  }

  lemma NewDict(m: Mem)
    requires Closed(m)
    ensures var m1 := Alloc(m, map[]);
            && Closed(m1) && Unshared(m1, SRef(m.next))
            && (forall q :: q != [] ==> Look(m1, SRef(m.next), q).None?)
            && (forall c :: Reaches(m1, SRef(m.next), c) ==> c == m.next)
            && (forall s :: Live(m, s) ==> !Reaches(m1, s, m.next))
  {
    var m1 := Alloc(m, map[]);
    forall s | Live(m, s) ensures !Reaches(m1, s, m.next) {
      forall q ensures Look(m1, s, q) != Some(SRef(m.next)) {
        AllocLook(m, map[], s);
        if Look(m, s, q).Some? {
          LookLive(m, s, q);
        }
      }
    }
  }

  lemma CreateLook(m: Mem, root: nat, path: Path, c: nat, seg: string)
    requires Closed(m) && root in m.cells && Unshared(m, SRef(root))
    requires Look(m, SRef(root), path) == Some(SRef(c)) && c in m.cells && seg !in m.cells[c]
    ensures var m' := Create(m, c, seg);
            && Closed(m') && Unshared(m', SRef(root)) && m'.cells[m.next] == map[]
            && Look(m', SRef(root), path + [seg]) == Some(SRef(m.next))
            && (forall q :: q != path + [seg] ==> Look(m', SRef(root), q) == Look(m, SRef(root), q))
  {
    var m1, m', r := Alloc(m, map[]), Create(m, c, seg), SRef(root);
    NewDict(m);
    AllocLook(m, map[], r);
    assert Unshared(m1, r);
    assert Apart(m1, r, SRef(m.next)) by {
      assert !Reaches(m1, r, m.next);
    }
    assert m' == Write(m1, c, seg, SRef(m.next));
    WriteKeepsUnshared(m1, r, path, c, seg, SRef(m.next));
    forall q ensures Look(m', r, q) == if q == path + [seg] then Some(SRef(m.next)) else Look(m, r, q) {
      WriteLook(m1, r, path, c, seg, SRef(m.next), q);
      if path + [seg] <= q && q != path + [seg] {
        BelowAbsent(m, r, path, c, seg, q);
      }
    }
  }

  lemma BelowAbsent(m: Mem, s: Slot, path: Path, c: nat, seg: string, q: Path)
    requires Look(m, s, path) == Some(SRef(c)) && c in m.cells && seg !in m.cells[c]
    requires path + [seg] <= q
    ensures Look(m, s, q).None?
  {
    var rest := q[|path|..];
    assert q == path + rest && rest[0] == seg;
    LookThen(m, s, path, rest);
  }

  lemma CreateGrew(m0: Mem, m: Mem, root: nat, path: Path, n: nat, c: nat, seg: string)
    requires Closed(m0) && Descended(m0, m, root, path, n, c) && seg !in m.cells[c]
    ensures Extended(m0, Create(m, c, seg), SRef(root), path + [seg], n)
  {
    var m', r, path' := Create(m, c, seg), SRef(root), path + [seg];
    assert path'[..n] == path[..n];
    if n == |path| {
      assert path[..n] == path;
      assert GrewAt(m0, m', c, path'[n]);
    } else {
      var x :| Look(m0, r, path[..n]) == Some(SRef(x)) && GrewAt(m0, m, x, path[n]);
      assert IsNew(m0, m, Look(m, r, path));
      assert GrewAt(m0, m', x, path'[n]);
    }
  }

  lemma CreateStep(m0: Mem, m: Mem, root: nat, path: Path, n: nat, c: nat, seg: string)
    requires Closed(m0) && root in m0.cells && root in m.cells
    requires Descended(m0, m, root, path, n, c) && seg !in m.cells[c]
    ensures Descended(m0, Create(m, c, seg), root, path + [seg], n, m.next)
  {
    var m', r, path' := Create(m, c, seg), SRef(root), path + [seg];
    CreateGrew(m0, m, root, path, n, c, seg);
    CreateLook(m, root, path, c, seg);
    forall q ensures n < |q| && q <= path' ==> IsNew(m0, m', Look(m', r, q)) {
      if n < |q| && q <= path' && q != path' {
        assert q <= path;
        assert IsNew(m0, m, Look(m, r, q));
      }
    }
    forall q ensures !(n < |q| && q <= path') ==> Look(m', r, q) == Look(m0, r, q) {
      if !(n < |q| && q <= path') {
        assert q <= path ==> q <= path';
        assert q != path';
      }
    }
  }

  lemma WalkStep(m: Mem, root: nat, path: Path, c: nat, seg: string)
    requires Closed(m) && root in m.cells && Unshared(m, SRef(root))
    requires Look(m, SRef(root), path) == Some(SRef(c)) && c in m.cells && seg in m.cells[c]
    ensures Look(m, SRef(root), path + [seg]) == Some(m.cells[c][seg])
    ensures m.cells[c][seg].SRef? ==> Descended(m, m, root, path + [seg], |path| + 1, m.cells[c][seg].ref)
  {
    LookThen(m, SRef(root), path, [seg]);
    assert Look(m, SRef(c), [seg]) == Some(m.cells[c][seg]);
  }

  lemma CreateAt(m0: Mem, m: Mem, root: nat, segments: seq<string>, i: nat, n: nat, c: nat)
    requires Closed(m0) && root in m0.cells && root in m.cells && i < |segments|
    requires Descended(m0, m, root, segments[..i], n, c) && segments[i] !in m.cells[c]
    ensures Descended(m0, Create(m, c, segments[i]), root, segments[..i + 1], n, m.next)
  {
    assert segments[..i + 1] == segments[..i] + [segments[i]];
    CreateStep(m0, m, root, segments[..i], n, c, segments[i]);
  }

  /** An entry already there: nothing has been created so far. */
  lemma WalkAt(m0: Mem, m: Mem, root: nat, segments: seq<string>, i: nat, n: nat, c: nat)
    requires root in m.cells && i < |segments|
    requires Descended(m0, m, root, segments[..i], n, c) && segments[i] in m.cells[c]
    ensures m == m0 && Look(m, SRef(root), segments[..i + 1]) == Some(m.cells[c][segments[i]])
    ensures m.cells[c][segments[i]].SRef? ==>
            Descended(m0, m, root, segments[..i + 1], i + 1, m.cells[c][segments[i]].ref)
  {
    assert segments[..i + 1] == segments[..i] + [segments[i]];
    WalkStep(m, root, segments[..i], c, segments[i]);
  }

  /** Walk to the container for the final segment, creating missing dicts; None if a
      non-object is in the way, and then nothing was created. */
  method Descend(m0: Mem, root: nat, segments: seq<string>) returns (m: Mem, cursor: Option<nat>, ghost n: nat)
    requires Closed(m0) && root in m0.cells && Unshared(m0, SRef(root))
    ensures cursor.Some? ==> Descended(m0, m, root, segments, n, cursor.value)
    ensures cursor.None? ==>
              && m == m0 && n < |segments|
              && Look(m0, SRef(root), segments[..n + 1]).Some? && !Look(m0, SRef(root), segments[..n + 1]).value.SRef?
  {
    m, n := m0, 0;
    var c, i := root, 0;
    while i < |segments|
      invariant i <= |segments| && root in m.cells && c in m.cells && Descended(m0, m, root, segments[..i], n, c)
    {
      var segment := segments[i];
      if segment !in m.cells[c] {
        CreateAt(m0, m, root, segments, i, n, c);
        m, c := Create(m, c, segment), m.next;
      } else {
        WalkAt(m0, m, root, segments, i, n, c);
        if !m.cells[c][segment].SRef? {
          return m, None, i;
        }
        n, c := i + 1, m.cells[c][segment].ref;
      }
      i := i + 1;
    }
    assert segments[..i] == segments;
    cursor := Some(c);
  }

  // ---------------------------------------------------------------------
  // Placing one dotted value
  // ---------------------------------------------------------------------

  /** `m` is `m0` with `v` stored at `p`, dicts beyond the first `n` segments being new. */
  ghost predicate Placed(m0: Mem, m: Mem, root: nat, p: Path, v: Slot, n: nat) {
    var r := SRef(root);
    && n < |p| && Closed(m) && root in m.cells && Unshared(m, r) && m0.next <= m.next
    && (forall q :: PlacedLook(m0, m, root, p, v, n, q))
    && Extended(m0, m, r, p, n)
  }

  ghost predicate PlacedLook(m0: Mem, m: Mem, root: nat, p: Path, v: Slot, n: nat, q: Path) {
    if p <= q then Look(m, SRef(root), q) == Look(m0, v, q[|p|..])
    else if n < |q| && q < p then IsNew(m0, m, Look(m, SRef(root), q))
    else Look(m, SRef(root), q) == Look(m0, SRef(root), q)
  }

  lemma ReachesLive(m: Mem, s: Slot, c: nat)
    requires Closed(m) && Live(m, s) && Reaches(m, s, c)
    ensures c in m.cells && c < m.next
  {
    var q :| Look(m, s, q) == Some(SRef(c));
    LookLive(m, s, q);
  }

  /** A value apart from the tree is not affected by the descent. */
  lemma DescendKeepsValue(m0: Mem, m: Mem, root: nat, path: Path, n: nat, c: nat, v: Slot)
    requires Closed(m0) && root in m0.cells && Descended(m0, m, root, path, n, c)
    requires Live(m0, v) && Unshared(m0, v) && Apart(m0, SRef(root), v)
    ensures SameLook(m0, m, v) && Live(m, v) && Unshared(m, v) && Apart(m, SRef(root), v)
  {
    var r := SRef(root);
    if n < |path| {
      var x :| Look(m0, r, path[..n]) == Some(SRef(x)) && GrewAt(m0, m, x, path[n]);
      assert Reaches(m0, r, x);
    }
    Framed(m0, m, v);
    forall d | Reaches(m, r, d) ensures !Reaches(m, v, d) {
      SameReach(m0, m, v, d);
      var q :| Look(m, r, q) == Some(SRef(d));
      if n < |q| && q <= path {
        assert IsNew(m0, m, Look(m, r, q));
        if Reaches(m0, v, d) {
          ReachesLive(m0, v, d);
        }
      } else {
        assert Reaches(m0, r, d);
      }
    }
  }

  lemma SameReach(m: Mem, m': Mem, s: Slot, c: nat)
    requires SameLook(m, m', s)
    ensures Reaches(m, s, c) <==> Reaches(m', s, c)
  {
    if q :| Look(m, s, q) == Some(SRef(c)) {
      assert Look(m', s, q) == Some(SRef(c));
    }
  }

  lemma FinishLook(m0: Mem, m: Mem, root: nat, path: Path, n: nat, c: nat, leaf: string, v: Slot, q: Path)
    requires Descended(m0, m, root, path, n, c) && leaf !in m.cells[c]
    requires Live(m, v) && SameLook(m0, m, v) && !Reaches(m, v, c)
    ensures PlacedLook(m0, Write(m, c, leaf, v), root, path + [leaf], v, n, q)
  {
    WriteLook(m, SRef(root), path, c, leaf, v, q);
    assert path + [leaf] <= q ==> Look(m, v, q[|path| + 1..]) == Look(m0, v, q[|path| + 1..]);
    FinishLookAt(m0, m, Write(m, c, leaf, v), root, path, n, leaf, v, q);
  }

  lemma FinishLookAt(m0: Mem, m: Mem, m': Mem, root: nat, path: Path, n: nat, leaf: string, v: Slot, q: Path)
    requires n < |q| && q <= path ==> IsNew(m0, m, Look(m, SRef(root), q))
    requires !(n < |q| && q <= path) ==> Look(m, SRef(root), q) == Look(m0, SRef(root), q)
    requires path + [leaf] <= q ==> Look(m', SRef(root), q) == Look(m0, v, q[|path| + 1..])
    requires !(path + [leaf] <= q) ==> Look(m', SRef(root), q) == Look(m, SRef(root), q)
    requires m.next <= m'.next
    ensures PlacedLook(m0, m', root, path + [leaf], v, n, q)
  {
    ShorterPrefix(path, leaf, q);
  }

  lemma ShorterPrefix(path: Path, leaf: string, q: Path)
    ensures q < path + [leaf] <==> q <= path
    ensures path + [leaf] <= q ==> !(q <= path)
  {
  }

  lemma FinishPlace(m0: Mem, m: Mem, root: nat, path: Path, n: nat, c: nat, leaf: string, v: Slot)
    requires Closed(m0) && root in m0.cells && root in m.cells && Descended(m0, m, root, path, n, c)
    requires leaf !in m.cells[c] && Live(m0, v) && Unshared(m0, v) && Apart(m0, SRef(root), v)
    ensures Placed(m0, Write(m, c, leaf, v), root, path + [leaf], v, n)
  {
    var m', r, p := Write(m, c, leaf, v), SRef(root), path + [leaf];
    DescendKeepsValue(m0, m, root, path, n, c, v);
    assert Reaches(m, r, c);
    WriteKeepsUnshared(m, r, path, c, leaf, v);
    FinishGrew(m0, m, root, path, n, c, leaf, v);
    forall q ensures PlacedLook(m0, m', root, p, v, n, q) {
      FinishLook(m0, m, root, path, n, c, leaf, v, q);
    }
  }

  lemma FinishGrew(m0: Mem, m: Mem, root: nat, path: Path, n: nat, c: nat, leaf: string, v: Slot)
    requires Closed(m0) && Descended(m0, m, root, path, n, c) && leaf !in m.cells[c]
    ensures Extended(m0, Write(m, c, leaf, v), SRef(root), path + [leaf], n)
  {
    var m', r, p := Write(m, c, leaf, v), SRef(root), path + [leaf];
    assert p[..n] == path[..n];
    if n == |path| {
      assert path[..n] == path;
      assert GrewAt(m0, m', c, p[n]);
    } else {
      var x :| Look(m0, r, path[..n]) == Some(SRef(x)) && GrewAt(m0, m, x, path[n]);
      assert IsNew(m0, m, Look(m, r, path));
      assert GrewAt(m0, m', x, p[n]);
    }
  }

  ghost predicate FreeSlot(m: Mem, s: Slot, p: Path) {
    && Look(m, s, p).None?
    && forall i :: 0 <= i < |p| ==> Look(m, s, p[..i]).None? || Look(m, s, p[..i]).value.SRef?
  }

  lemma {:induction false} LookPrefix(m: Mem, s: Slot, p: Path, i: nat)
    requires i < |p| && Look(m, s, p).Some?
    ensures Look(m, s, p[..i]).Some? && Look(m, s, p[..i]).value.SRef?
  {
    assert p == p[..i] + p[i..];
    LookThen(m, s, p[..i], p[i..]);
  }

  /** Before the descent, every prefix of the path was a dict or missing. */
  lemma NothingInTheWay(m0: Mem, m: Mem, root: nat, path: Path, n: nat, c: nat, i: nat)
    requires Descended(m0, m, root, path, n, c) && i <= |path|
    ensures Look(m0, SRef(root), path[..i]).None? || Look(m0, SRef(root), path[..i]).value.SRef?
  {
    var r := SRef(root);
    if n < i {
      var x :| Look(m0, r, path[..n]) == Some(SRef(x)) && GrewAt(m0, m, x, path[n]);
      assert path[..n] + [path[n]] == path[..n + 1] <= path[..i];
      BelowAbsent(m0, r, path[..n], x, path[n], path[..i]);
    } else {
      assert Look(m, r, path[..i]) == Look(m0, r, path[..i]);
      if i < |path| {
        LookPrefix(m, r, path, i);
      } else {
        assert path[..i] == path;
      }
    }
  }

  lemma DescendedFree(m0: Mem, m: Mem, root: nat, path: Path, n: nat, c: nat, leaf: string)
    requires Descended(m0, m, root, path, n, c)
    ensures FreeSlot(m0, SRef(root), path + [leaf]) <==> leaf !in m.cells[c]
    ensures leaf in m.cells[c] ==> m == m0
  {
    var r, p := SRef(root), path + [leaf];
    LookThen(m, r, path, [leaf]);
    assert Look(m, SRef(c), [leaf]).Some? <==> leaf in m.cells[c];
    assert !(p <= path);
    assert Look(m, r, p) == Look(m0, r, p);
    forall i | 0 <= i < |p| ensures Look(m0, r, p[..i]).None? || Look(m0, r, p[..i]).value.SRef? {
      assert p[..i] == path[..i];
      NothingInTheWay(m0, m, root, path, n, c, i);
    }
  }

  /** One iteration of the repair loop: store `v` at `p`, or change nothing. */
  method Place(m0: Mem, root: nat, p: Path, v: Slot) returns (m: Mem, ok: bool, ghost n: nat)
    requires |p| >= 1 && Closed(m0) && root in m0.cells && Unshared(m0, SRef(root))
    requires Live(m0, v) && Unshared(m0, v) && Apart(m0, SRef(root), v)
    ensures ok <==> FreeSlot(m0, SRef(root), p)
    ensures ok ==> Placed(m0, m, root, p, v, n)
    ensures !ok ==> m == m0
  {
    var path, leaf := p[..|p| - 1], p[|p| - 1];
    assert p == path + [leaf];
    var cursor: Option<nat>;
    m, cursor, n := Descend(m0, root, path);
    if cursor.None? {
      assert p[..n + 1] == path[..n + 1];
      return m, false, n;
    }
    DescendedFree(m0, m, root, path, n, cursor.value, leaf);
    ok := leaf !in m.cells[cursor.value];
    if ok {
      FinishPlace(m0, m, root, path, n, cursor.value, leaf, v);
      m := Write(m, cursor.value, leaf, v);
    }
  }

  lemma FreeHolds(m: Mem, s: Slot, j: Json, p: Path)
    requires Holds(m, s, j) && |p| >= 1
    ensures FreeSlot(m, s, p) <==> Free(j, p)
  {
    FreeShape(j, p);
    assert SlotShape(Look(m, s, p)) == ShapeAt(j, p);
    forall i | 0 <= i < |p|
      ensures (Look(m, s, p[..i]).None? || Look(m, s, p[..i]).value.SRef?) <==> !ShapeAt(j, p[..i]).Value?
    {
      assert SlotShape(Look(m, s, p[..i])) == ShapeAt(j, p[..i]);
    }
  }

  /** Storing a value in the dicts inserts it into the tree they hold. */
  lemma PlacedHolds(m0: Mem, m: Mem, root: nat, p: Path, v: Slot, n: nat, j: Json, jv: Json)
    requires Placed(m0, m, root, p, v, n) && Holds(m0, SRef(root), j) && Holds(m0, v, jv) && Free(j, p)
    ensures Holds(m, SRef(root), Insert(j, p, jv))
  {
    var r := SRef(root);
    forall q ensures SlotShape(Look(m, r, q)) == ShapeAt(Insert(j, p, jv), q) {
      InsertShape(j, p, jv, q);
      assert PlacedLook(m0, m, root, p, v, n, q);
      if p <= q {
        assert SlotShape(Look(m0, v, q[|p|..])) == ShapeAt(jv, q[|p|..]);
      } else if q <= p {
        assert q < p;
        if |q| <= n {
          var x :| Look(m0, r, p[..n]) == Some(SRef(x));
          assert q == p[..n][..|q|];
          if |q| < n {
            LookPrefix(m0, r, p[..n], |q|);
          } else {
            assert q == p[..n];
          }
        }
      }
    }
  }

  // ---------------------------------------------------------------------
  // _copy_nested_dicts
  // ---------------------------------------------------------------------

  ghost predicate Keeps(m0: Mem, m: Mem) {
    m0.next <= m.next && forall c :: c in m0.cells ==> c in m.cells && m.cells[c] == m0.cells[c]
  }

  /** `s` holds `j` in dicts that all were created since `base`. */
  ghost predicate FreshTree(m: Mem, base: nat, s: Slot, j: Json) {
    && Live(m, s) && Holds(m, s, j) && Unshared(m, s)
    && forall c :: Reaches(m, s, c) ==> base <= c
  }

  lemma KeepsLook(m0: Mem, m: Mem, s: Slot)
    requires Closed(m0) && Keeps(m0, m) && Live(m0, s)
    ensures SameLook(m0, m, s) && Live(m, s)
    ensures forall c :: Reaches(m, s, c) <==> Reaches(m0, s, c)
  {
    Framed(m0, m, s);
    forall c ensures Reaches(m, s, c) <==> Reaches(m0, s, c) {
      SameReach(m0, m, s, c);
    }
  }

  lemma FreshTreeKept(m0: Mem, m: Mem, base: nat, s: Slot, j: Json)
    requires Closed(m0) && Keeps(m0, m) && FreshTree(m0, base, s, j)
    ensures FreshTree(m, base, s, j)
  {
    KeepsLook(m0, m, s);
  }

  lemma EntryHolds(m: Mem, c: nat, j: Json, k: string)
    requires c in m.cells && Holds(m, SRef(c), j) && k in m.cells[c]
    ensures j.Obj? && k in j.fields && Holds(m, m.cells[c][k], j.fields[k])
  {
    assert SlotShape(Look(m, SRef(c), [])) == ShapeAt(j, []);
    assert SlotShape(Look(m, SRef(c), [k])) == ShapeAt(j, [k]);
    assert Look(m, SRef(c), [k]) == Look(m, m.cells[c][k], []);
    forall q ensures SlotShape(Look(m, m.cells[c][k], q)) == ShapeAt(j.fields[k], q) {
      assert ([k] + q)[1..] == q;
      assert SlotShape(Look(m, SRef(c), [k] + q)) == ShapeAt(j, [k] + q);
    }
  }

  lemma LookField(m: Mem, c: nat, k: string)
    requires c in m.cells
    ensures Look(m, SRef(c), [k]) == if k in m.cells[c] then Some(m.cells[c][k]) else None
  {
    assert [k][1..] == [];
  }

  lemma KeysHold(m: Mem, c: nat, j: Json)
    requires c in m.cells && Holds(m, SRef(c), j)
    ensures j.Obj? && j.fields.Keys == m.cells[c].Keys
  {
    assert SlotShape(Look(m, SRef(c), [])) == ShapeAt(j, []);
    forall k ensures k in j.fields <==> k in m.cells[c] {
      assert SlotShape(Look(m, SRef(c), [k])) == ShapeAt(j, [k]);
      FieldShape(j, k);
      LookField(m, c, k);
    }
  }

  /** Entries that hold the parts of an object, put in a new dict, hold the object. */
  lemma AllocHolds(m: Mem, base: nat, cell: map<string, Slot>, j: Json)
    requires Closed(m) && base <= m.next && j.Obj? && cell.Keys == j.fields.Keys
    requires forall k :: k in cell ==> FreshTree(m, base, cell[k], j.fields[k])
    requires forall k, k' :: k in cell && k' in cell && k != k' ==> Apart(m, cell[k], cell[k'])
    ensures Closed(Alloc(m, cell)) && FreshTree(Alloc(m, cell), base, SRef(m.next), j)
  {
    var m', s := Alloc(m, cell), SRef(m.next);
    forall q | q != [] ensures Look(m', s, q) == if q[0] in cell then Look(m, cell[q[0]], q[1..]) else None {
      if q[0] in cell {
        AllocLook(m, cell, cell[q[0]]);
      }
    }
    forall q ensures SlotShape(Look(m', s, q)) == ShapeAt(j, q) {
      if q != [] && q[0] in cell {
        assert SlotShape(Look(m, cell[q[0]], q[1..])) == ShapeAt(j.fields[q[0]], q[1..]);
      }
    }
    forall q, c: nat | Look(m', s, q) == Some(SRef(c)) && q != []
      ensures base <= c < m.next && Reaches(m, cell[q[0]], c)
    {
      assert Look(m, cell[q[0]], q[1..]) == Some(SRef(c));
      ReachesLive(m, cell[q[0]], c);
    }
    forall p, q, c | Look(m', s, p) == Some(SRef(c)) && Look(m', s, q) == Some(SRef(c)) ensures p == q {
      if p != [] && q != [] {
        assert p[0] == q[0];
        assert p == [p[0]] + p[1..] && q == [q[0]] + q[1..];
      }
    }
  }

  method CopyNestedDicts(m0: Mem, source: nat, ghost j: Json) returns (m: Mem, copy: nat)
    requires Closed(m0) && source in m0.cells && Holds(m0, SRef(source), j)
    ensures Closed(m) && Keeps(m0, m) && copy in m.cells && FreshTree(m, m0.next, SRef(copy), j)
    decreases j
  {
    KeysHold(m0, source, j);
    var entries := m0.cells[source];
    var cell: map<string, Slot> := map[];
    var todo := entries.Keys;
    m := m0;
    while todo != {}
      invariant todo <= entries.Keys && cell.Keys == entries.Keys - todo
      invariant Closed(m) && Keeps(m0, m)
      invariant forall k :: k in cell ==> FreshTree(m, m0.next, cell[k], j.fields[k])
      invariant forall k, k' :: k in cell && k' in cell && k != k' ==> Apart(m, cell[k], cell[k'])
    {
      var k :| k in todo;
      EntryHolds(m0, source, j, k);
      KeepsLook(m0, m, entries[k]);
      var slot := entries[k];
      ghost var before := m;
      if slot.SRef? {
        var c;
        m, c := CopyNestedDicts(m, slot.ref, j.fields[k]);
        slot := SRef(c);
      } else {
        ScalarFresh(m, m0.next, slot, j.fields[k]);
      }
      AddEntry(before, m, m0.next, cell, j, k, slot);
      cell := cell[k := slot];
      todo := todo - {k};
    }
    AllocHolds(m, m0.next, cell, j);
    copy := m.next;
    m := Alloc(m, cell);
  }

  lemma ScalarFresh(m: Mem, base: nat, s: Slot, j: Json)
    requires !s.SRef? && Holds(m, s, j)
    ensures FreshTree(m, base, s, j) && forall c :: !Reaches(m, s, c)
  {
    forall q ensures q != [] ==> Look(m, s, q).None? {
    }
  }

  lemma AddEntry(m: Mem, m': Mem, base: nat, cell: map<string, Slot>, j: Json, k: string, slot: Slot)
    requires Closed(m) && Closed(m') && Keeps(m, m') && base <= m.next
    requires j.Obj? && cell.Keys <= j.fields.Keys && k in j.fields && k !in cell
    requires forall x :: x in cell ==> FreshTree(m, base, cell[x], j.fields[x])
    requires forall x, y :: x in cell && y in cell && x != y ==> Apart(m, cell[x], cell[y])
    requires FreshTree(m', base, slot, j.fields[k])
    requires forall c :: Reaches(m', slot, c) ==> m.next <= c
    ensures var cell' := cell[k := slot];
            && (forall x :: x in cell' ==> FreshTree(m', base, cell'[x], j.fields[x]))
            && (forall x, y :: x in cell' && y in cell' && x != y ==> Apart(m', cell'[x], cell'[y]))
  {
    forall x | x in cell
      ensures FreshTree(m', base, cell[x], j.fields[x])
      ensures forall c :: Reaches(m', cell[x], c) <==> Reaches(m, cell[x], c)
      ensures forall c: nat :: Reaches(m', cell[x], c) ==> c < m.next
    {
      FreshTreeKept(m, m', base, cell[x], j.fields[x]);
      KeepsLook(m, m', cell[x]);
      forall c: nat | Reaches(m, cell[x], c) ensures c < m.next {
        ReachesLive(m, cell[x], c);
      }
    }
  }

  // ---------------------------------------------------------------------
  // _reconstruct_dotted_arguments
  // ---------------------------------------------------------------------

  /** The caller's payload: decoded JSON, so no dict occurs twice in it. */
  ghost predicate PayloadOk(m: Mem, payload: map<string, Slot>, jp: Payload) {
    && Closed(m) && payload.Keys == jp.Keys
    && (forall k :: k in payload ==> Live(m, payload[k]) && Holds(m, payload[k], jp[k]) && Unshared(m, payload[k]))
    && (forall k, k' :: k in payload && k' in payload && k != k' ==> Apart(m, payload[k], payload[k']))
  }

  /** No dict of the caller was written to. */
  ghost predicate Untouched(m0: Mem, m: Mem) {
    forall c :: c in m0.cells ==> c in m.cells && m.cells[c] == m0.cells[c]
  }

  ghost predicate Touched(m0: Mem, m: Mem) {
    exists c, k :: c in m0.cells && c in m.cells && k in m.cells[c] && k !in m0.cells[c]
  }

  /** The rebuilt tree after `keys`; apart from new dicts it consists of those keys' values. */
  ghost predicate Progress(m0: Mem, m: Mem, root: nat, payload: map<string, Slot>, jp: Payload, explicit: Json,
                           keys: seq<string>)
    requires payload.Keys == jp.Keys && KeysOf(jp, keys)
  {
    var r := SRef(root);
    && Closed(m) && root in m.cells && m0.next <= root && m0.next <= m.next
    && Holds(m, r, Rebuild(jp, explicit, keys).tree) && Unshared(m, r)
    && (forall c :: c in m0.cells ==> c in m.cells && m0.cells[c].Keys <= m.cells[c].Keys)
    && (forall c: nat :: Reaches(m, r, c) && c < m0.next ==> From(m0, payload, keys, c))
    && (forall k :: k in payload && k !in keys ==> SameLook(m0, m, payload[k]))
  }

  ghost predicate From(m0: Mem, payload: map<string, Slot>, keys: seq<string>, c: nat) {
    exists a :: a in keys && a in payload && Reaches(m0, payload[a], c)
  }

  lemma Unprocessed(m0: Mem, m: Mem, root: nat, payload: map<string, Slot>, jp: Payload, explicit: Json,
                    keys: seq<string>, k: string)
    requires PayloadOk(m0, payload, jp) && KeysOf(jp, keys) && Progress(m0, m, root, payload, jp, explicit, keys)
    requires k in payload && k !in keys
    ensures Live(m, payload[k]) && Holds(m, payload[k], jp[k]) && Unshared(m, payload[k])
    ensures forall c: nat :: Reaches(m, payload[k], c) ==> Reaches(m0, payload[k], c) && c < m0.next
    ensures Apart(m, SRef(root), payload[k])
  {
    forall c: nat | Reaches(m, payload[k], c) ensures Reaches(m0, payload[k], c) && c < m0.next {
      SameReach(m0, m, payload[k], c);
      ReachesLive(m0, payload[k], c);
    }
    forall c: nat | Reaches(m, SRef(root), c) ensures !Reaches(m, payload[k], c) {
      if c < m0.next {
        var a :| a in keys && a in payload && Reaches(m0, payload[a], c);
        assert Apart(m0, payload[a], payload[k]);
      }
    }
  }

  /** What the tree reaches after a placement. */
  lemma PlacedReaches(m: Mem, m2: Mem, root: nat, p: Path, v: Slot, n: nat, c: nat)
    requires Placed(m, m2, root, p, v, n) && Reaches(m2, SRef(root), c) && c < m.next
    ensures Reaches(m, SRef(root), c) || Reaches(m, v, c)
  {
    var q :| Look(m2, SRef(root), q) == Some(SRef(c));
    assert PlacedLook(m, m2, root, p, v, n, q);
  }

  lemma PlacedFrame(m: Mem, m2: Mem, root: nat, p: Path, v: Slot, n: nat, s: Slot)
    requires Closed(m) && Placed(m, m2, root, p, v, n) && Live(m, s) && Apart(m, SRef(root), s)
    ensures SameLook(m, m2, s)
  {
    var x :| Look(m, SRef(root), p[..n]) == Some(SRef(x)) && GrewAt(m, m2, x, p[n]);
    assert Reaches(m, SRef(root), x);
    Framed(m, m2, s);
  }

  lemma PlaceProgress(m0: Mem, m: Mem, m2: Mem, root: nat, payload: map<string, Slot>, jp: Payload, explicit: Json,
                      keys: seq<string>, k: string, n: nat)
    requires PayloadOk(m0, payload, jp) && KeysOf(jp, keys) && Progress(m0, m, root, payload, jp, explicit, keys)
    requires k in payload && k !in keys && IsDotted(k) && WellFormed(PathOf(k))
    requires Placed(m, m2, root, PathOf(k), payload[k], n) && Free(Rebuild(jp, explicit, keys).tree, PathOf(k))
    ensures KeysOf(jp, keys + [k]) && Progress(m0, m2, root, payload, jp, explicit, keys + [k])
  {
    var r, p, keys' := SRef(root), PathOf(k), keys + [k];
    Unprocessed(m0, m, root, payload, jp, explicit, keys, k);
    PlacedHolds(m, m2, root, p, payload[k], n, Rebuild(jp, explicit, keys).tree, jp[k]);
    assert keys'[..|keys'| - 1] == keys;
    PlacedGrows(m0, m, m2, root, p, payload[k], n);
    forall c: nat | Reaches(m2, r, c) && c < m0.next ensures From(m0, payload, keys', c) {
      PlacedReaches(m, m2, root, p, payload[k], n, c);
      if Reaches(m, r, c) {
        var a :| a in keys && a in payload && Reaches(m0, payload[a], c);
        assert a in keys';
      } else {
        assert k in keys';
      }
    }
    forall o | o in payload && o !in keys' ensures SameLook(m0, m2, payload[o]) {
      Unprocessed(m0, m, root, payload, jp, explicit, keys, o);
      PlacedFrame(m, m2, root, p, payload[k], n, payload[o]);
    }
  }

  lemma PlacedGrows(m0: Mem, m: Mem, m2: Mem, root: nat, p: Path, v: Slot, n: nat)
    requires Placed(m, m2, root, p, v, n)
    requires forall c :: c in m0.cells ==> c in m.cells && m0.cells[c].Keys <= m.cells[c].Keys
    ensures forall c :: c in m0.cells ==> c in m2.cells && m0.cells[c].Keys <= m2.cells[c].Keys
  {
    var x :| Look(m, SRef(root), p[..n]) == Some(SRef(x)) && GrewAt(m, m2, x, p[n]);
  }

  lemma SkipProgress(m0: Mem, m: Mem, root: nat, payload: map<string, Slot>, jp: Payload, explicit: Json,
                     keys: seq<string>, k: string)
    requires payload.Keys == jp.Keys && KeysOf(jp, keys) && Progress(m0, m, root, payload, jp, explicit, keys)
    requires k in payload && IsDotted(k)
    requires !(WellFormed(PathOf(k)) && Free(Rebuild(jp, explicit, keys).tree, PathOf(k)))
    ensures KeysOf(jp, keys + [k]) && Progress(m0, m, root, payload, jp, explicit, keys + [k])
  {
    var keys' := keys + [k];
    assert keys'[..|keys'| - 1] == keys;
    forall c: nat | From(m0, payload, keys, c) ensures From(m0, payload, keys', c) {
      var a :| a in keys && a in payload && Reaches(m0, payload[a], c);
      assert a in keys';
    }
  }

  // --- Which dicts are the caller's ----------------------------------------

  /** In the rebuilt tree the caller's dicts are those at or below a top key's path. */
  ghost predicate Ownership(m0: Mem, m: Mem, root: nat, tops: set<string>) {
    forall q :: Owned(m0, m, root, tops, q)
  }

  ghost predicate Owned(m0: Mem, m: Mem, root: nat, tops: set<string>, q: Path) {
    var s := Look(m, SRef(root), q);
    s.Some? && s.value.SRef? ==> (s.value.ref < m0.next <==> Covered(tops, q))
  }

  ghost predicate Covered(tops: set<string>, q: Path) {
    exists b :: b in tops && IsDotted(b) && PathOf(b) <= q
  }

  lemma TopLeavesUntouched(m0: Mem, m: Mem, m2: Mem, root: nat, v: Slot, all: set<string>, explicit: Json,
                           tops: set<string>, k: string, n: nat)
    requires Closed(m0) && m0.next <= m.next && Untouched(m0, m) && Ownership(m0, m, root, tops)
    requires Top(all, explicit, k) && forall b :: b in tops ==> Top(all, explicit, b)
    requires Placed(m, m2, root, PathOf(k), v, n)
    requires forall c: nat :: Reaches(m, v, c) ==> c < m0.next
    ensures Untouched(m0, m2) && Ownership(m0, m2, root, tops + {k})
  {
    var r, p, tops' := SRef(root), PathOf(k), tops + {k};
    var x :| Look(m, r, p[..n]) == Some(SRef(x)) && GrewAt(m, m2, x, p[n]);
    NotCovered(all, explicit, tops, k, n);
    assert Owned(m0, m, root, tops, p[..n]);
    assert Untouched(m0, m2);
    forall q ensures Owned(m0, m2, root, tops', q) {
      assert PlacedLook(m, m2, root, p, v, n, q);
      assert Owned(m0, m, root, tops, q);
      if p <= q {
        assert k in tops' && Covered(tops', q);
        if Look(m2, r, q).Some? && Look(m2, r, q).value.SRef? {
          assert Reaches(m, v, Look(m2, r, q).value.ref);
        }
      } else {
        assert Covered(tops', q) <==> Covered(tops, q);
        if n < |q| && q < p {
          NotCovered(all, explicit, tops, k, |q|);
          assert q == p[..|q|];
        }
      }
    }
  }

  lemma NotCovered(all: set<string>, explicit: Json, tops: set<string>, k: string, n: nat)
    requires Top(all, explicit, k) && n < |PathOf(k)|
    requires forall a :: a in tops ==> Top(all, explicit, a)
    ensures !Covered(tops, PathOf(k)[..n])
  {
    var q := PathOf(k)[..n];
    assert q < PathOf(k);
    assert forall a :: a in tops ==> !(PathOf(a) < PathOf(k));
  }

  /** The dict that grows is at least as deep as any dict already on the path. */
  lemma GrowthIsDeeper(m: Mem, root: nat, p: Path, n: nat, x: nat, pb: Path)
    requires n < |p| && Look(m, SRef(root), p[..n]) == Some(SRef(x)) && x in m.cells && p[n] !in m.cells[x]
    requires pb < p && Look(m, SRef(root), pb).Some?
    ensures pb <= p[..n]
  {
    if |pb| > n {
      assert p[..n] + [p[n]] == p[..n + 1];
      assert pb == p[..|pb|];
      assert p[..n + 1] <= pb;
      BelowAbsent(m, SRef(root), p[..n], x, p[n], pb);
    }
  }

  lemma InsideTouches(m0: Mem, m: Mem, m2: Mem, root: nat, v: Slot, tops: set<string>, b: string, p: Path, n: nat)
    requires Closed(m0) && Closed(m) && root in m.cells && Untouched(m0, m) && Ownership(m0, m, root, tops)
    requires forall c: nat :: Reaches(m, SRef(root), c) && c < m0.next ==> c in m0.cells
    requires b in tops && IsDotted(b) && PathOf(b) < p && Look(m, SRef(root), PathOf(b)).Some?
    requires Placed(m, m2, root, p, v, n)
    ensures Touched(m0, m2)
  {
    var r, pb := SRef(root), PathOf(b);
    var x :| Look(m, r, p[..n]) == Some(SRef(x)) && GrewAt(m, m2, x, p[n]);
    GrowthIsDeeper(m, root, p, n, x, pb);
    assert Covered(tops, p[..n]);
    assert Owned(m0, m, root, tops, p[..n]);
    assert Reaches(m, r, x);
    assert p[n] in m2.cells[x] && p[n] !in m0.cells[x];
  }

  lemma TouchedStays(m0: Mem, m: Mem, m2: Mem, root: nat, p: Path, v: Slot, n: nat)
    requires Touched(m0, m) && Placed(m, m2, root, p, v, n)
    ensures Touched(m0, m2)
  {
    var c, k :| c in m0.cells && c in m.cells && k in m.cells[c] && k !in m0.cells[c];
    var x :| Look(m, SRef(root), p[..n]) == Some(SRef(x)) && GrewAt(m, m2, x, p[n]);
    assert k in m2.cells[c];
  }

  /** Nothing of the caller's was written unless a key went inside a dotted object. */
  ghost predicate Footprint(m0: Mem, m: Mem, root: nat, jp: Payload, explicit: Json, keys: seq<string>)
    requires KeysOf(jp, keys)
  {
    var tops := Tops(DottedOf(jp), explicit, keys);
    if AllIn(Rebuild(jp, explicit, keys).repaired, tops)
    then Untouched(m0, m) && Ownership(m0, m, root, tops)
    else Touched(m0, m)
  }

  /** `keys` and then `k` are the first dotted keys of the payload. */
  ghost predicate NextKey(jp: Payload, explicit: Json, keys: seq<string>, k: string) {
    && Started(jp, explicit, DottedOf(jp), keys) && Started(jp, explicit, DottedOf(jp), keys + [k])
    && KeysOf(jp, keys) && KeysOf(jp, keys + [k]) && k !in keys
  }

  lemma NextKeyHolds(jp: Payload, explicit: Json, all: seq<string>, i: nat)
    requires explicit.Obj? && SortedEnum(all, DottedOf(jp)) && i < |all|
    ensures NextKey(jp, explicit, all[..i], all[i])
  {
    assert all[..i] + [all[i]] == all[..i + 1];
    InitialStarted(jp, explicit, all, i);
    InitialStarted(jp, explicit, all, i + 1);
    LessTotal(all[i], all[i]);
    assert forall a :: a in all[..i] ==> Less(a, all[i]);
  }

  lemma InitialStarted(jp: Payload, explicit: Json, all: seq<string>, n: nat)
    requires explicit.Obj? && SortedEnum(all, DottedOf(jp)) && n <= |all|
    ensures Started(jp, explicit, DottedOf(jp), all[..n]) && KeysOf(jp, all[..n])
  {
    var keys := all[..n];
    assert forall k :: k in keys ==> k in all;
    assert forall k :: k in all ==> IsDotted(k);
    forall a, b | a in keys && b in DottedOf(jp) && PathOf(b) < PathOf(a) ensures b in keys {
      PrefixSortsFirst(b, a);
      assert b in all;
      var i, j :| 0 <= i < |all| && all[i] == b && 0 <= j < n && all[j] == a;
      if j < i {
        LessTotal(a, b);
      }
      LessTotal(a, a);
      assert i < n;
      assert keys[i] == b;
    }
  }

  lemma SkipFootprint(m0: Mem, m: Mem, root: nat, jp: Payload, explicit: Json, keys: seq<string>, k: string)
    requires NextKey(jp, explicit, keys, k) && Footprint(m0, m, root, jp, explicit, keys)
    requires !(WellFormed(PathOf(k)) && Free(Rebuild(jp, explicit, keys).tree, PathOf(k)))
    ensures Footprint(m0, m, root, jp, explicit, keys + [k])
  {
    var keys', all := keys + [k], DottedOf(jp);
    assert keys'[..|keys'| - 1] == keys;
    TopsStep(all, explicit, keys');
    if Top(all, explicit, k) {
      LoopInvariant(jp, explicit, all, keys);
      TopIsFree(jp, explicit, all, keys, Rebuild(jp, explicit, keys).tree, k);
    }
    assert Tops(all, explicit, keys') == Tops(all, explicit, keys);
  }

  lemma PlaceFootprint(m0: Mem, m: Mem, m2: Mem, root: nat, payload: map<string, Slot>, jp: Payload, explicit: Json,
                       keys: seq<string>, k: string, n: nat)
    requires PayloadOk(m0, payload, jp) && NextKey(jp, explicit, keys, k)
    requires Progress(m0, m, root, payload, jp, explicit, keys) && Footprint(m0, m, root, jp, explicit, keys)
    requires k in payload && WellFormed(PathOf(k)) && Free(Rebuild(jp, explicit, keys).tree, PathOf(k))
    requires Placed(m, m2, root, PathOf(k), payload[k], n)
    ensures Footprint(m0, m2, root, jp, explicit, keys + [k])
  {
    var keys', all, r := keys + [k], DottedOf(jp), Rebuild(jp, explicit, keys);
    var tops := Tops(all, explicit, keys);
    assert keys'[..|keys'| - 1] == keys;
    TopsStep(all, explicit, keys');
    RepairMembers(jp, explicit, keys);
    assert Rebuild(jp, explicit, keys').repaired == r.repaired + [k];
    if !AllIn(r.repaired, tops) {
      var a :| a in r.repaired && a !in tops;
      assert a in r.repaired + [k] && a != k;
      TouchedStays(m0, m, m2, root, PathOf(k), payload[k], n);
    } else if Top(all, explicit, k) {
      Unprocessed(m0, m, root, payload, jp, explicit, keys, k);
      TopLeavesUntouched(m0, m, m2, root, payload[k], all, explicit, tops, k, n);
    } else {
      assert k in r.repaired + [k] && k !in tops;
      InsideFootprint(m0, m, m2, root, payload, jp, explicit, keys, k, n);
    }
  }

  lemma InsideFootprint(m0: Mem, m: Mem, m2: Mem, root: nat, payload: map<string, Slot>, jp: Payload, explicit: Json,
                        keys: seq<string>, k: string, n: nat)
    requires PayloadOk(m0, payload, jp) && NextKey(jp, explicit, keys, k)
    requires Progress(m0, m, root, payload, jp, explicit, keys)
    requires Untouched(m0, m) && Ownership(m0, m, root, Tops(DottedOf(jp), explicit, keys))
    requires k in payload && WellFormed(PathOf(k)) && Free(Rebuild(jp, explicit, keys).tree, PathOf(k))
    requires !Top(DottedOf(jp), explicit, k) && Placed(m, m2, root, PathOf(k), payload[k], n)
    ensures Touched(m0, m2)
  {
    var all, t := DottedOf(jp), Rebuild(jp, explicit, keys).tree;
    var tops := Tops(all, explicit, keys);
    if !Eligible(explicit, k) {
      IneligibleIsSkipped(jp, explicit, keys, k);
    }
    var b := TopAbove(all, explicit, k);
    assert b in keys + [k] by {
      assert k in keys + [k];
    }
    LoopInvariant(jp, explicit, all, keys);
    TopIsThere(jp, explicit, all, tops, t, b);
    assert SlotShape(Look(m, SRef(root), PathOf(b))) == ShapeAt(t, PathOf(b));
    forall c: nat | Reaches(m, SRef(root), c) && c < m0.next ensures c in m0.cells {
      var a :| a in keys && a in payload && Reaches(m0, payload[a], c);
      ReachesLive(m0, payload[a], c);
    }
    InsideTouches(m0, m, m2, root, payload[k], tops, b, PathOf(k), n);
  }

  lemma TopIsThere(jp: Payload, explicit: Json, all: set<string>, tops: set<string>, t: Json, b: string)
    requires tops <= jp.Keys && b in tops && IsDotted(b) && (forall a :: a in tops ==> Top(all, explicit, a))
    requires Overlaid(jp, explicit, tops, t)
    ensures ShapeAt(t, PathOf(b)) != Absent
  {
    KeyNamed(tops, b);
    assert !Below(tops, PathOf(b));
  }

  /** One pass of the loop: place the value of one key, or skip the key. */
  method PlaceKey(m0: Mem, m: Mem, root: nat, payload: map<string, Slot>, key: string,
                  ghost jp: Payload, ghost explicit: Json, ghost keys: seq<string>)
    returns (m2: Mem, ok: bool)
    requires PayloadOk(m0, payload, jp) && KeysOf(jp, keys) && NextKey(jp, explicit, keys, key)
    requires key in payload && key !in keys
    requires Progress(m0, m, root, payload, jp, explicit, keys) && Footprint(m0, m, root, jp, explicit, keys)
    ensures ok <==> WellFormed(PathOf(key)) && Free(Rebuild(jp, explicit, keys).tree, PathOf(key))
    ensures KeysOf(jp, keys + [key])
    ensures Progress(m0, m2, root, payload, jp, explicit, keys + [key])
    ensures Footprint(m0, m2, root, jp, explicit, keys + [key])
  {
    var segments := PathOf(key);
    m2, ok := m, false;
    if WellFormed(segments) {
      Unprocessed(m0, m, root, payload, jp, explicit, keys, key);
      FreeHolds(m, SRef(root), Rebuild(jp, explicit, keys).tree, segments);
      ghost var n;
      m2, ok, n := Place(m, root, segments, payload[key]);
      if ok {
        PlaceProgress(m0, m, m2, root, payload, jp, explicit, keys, key, n);
        PlaceFootprint(m0, m, m2, root, payload, jp, explicit, keys, key, n);
        return;
      }
    }
    SkipProgress(m0, m, root, payload, jp, explicit, keys, key);
    SkipFootprint(m0, m, root, jp, explicit, keys, key);
  }

  /** The loop over the dotted keys, on mutable dicts. */
  method RepairLoop(m0: Mem, m1: Mem, root: nat, payload: map<string, Slot>, dotted: seq<string>,
                    ghost jp: Payload, ghost explicit: Json)
    returns (m: Mem, repaired: seq<string>, skipped: seq<string>)
    requires PayloadOk(m0, payload, jp) && explicit.Obj? && SortedEnum(dotted, DottedOf(jp)) && KeysOf(jp, dotted)
    requires Progress(m0, m1, root, payload, jp, explicit, []) && Footprint(m0, m1, root, jp, explicit, [])
    ensures Progress(m0, m, root, payload, jp, explicit, dotted) && Footprint(m0, m, root, jp, explicit, dotted)
    ensures var r := Rebuild(jp, explicit, dotted); repaired == r.repaired && skipped == r.skipped
  {
    m, repaired, skipped := m1, [], [];
    for i := 0 to |dotted|
      invariant KeysOf(jp, dotted[..i])
      invariant Progress(m0, m, root, payload, jp, explicit, dotted[..i])
      invariant Footprint(m0, m, root, jp, explicit, dotted[..i])
      invariant var r := Rebuild(jp, explicit, dotted[..i]); repaired == r.repaired && skipped == r.skipped
    {
      var key := dotted[i];
      ghost var keys := dotted[..i];
      NextKeyHolds(jp, explicit, dotted, i);
      assert dotted[..i + 1] == keys + [key] && (keys + [key])[..i] == keys;
      var ok;
      m, ok := PlaceKey(m0, m, root, payload, key, jp, explicit, keys);
      if ok {
        repaired := repaired + [key];
      } else {
        skipped := skipped + [key];
      }
    }
    assert dotted[..|dotted|] == dotted;
  }

  // --- Assembling the envelope ---------------------------------------------

  lemma ChildMissesRoot(m: Mem, root: nat, k: string)
    requires root in m.cells && Unshared(m, SRef(root)) && k in m.cells[root]
    ensures !Reaches(m, m.cells[root][k], root)
  {
    forall q ensures Look(m, m.cells[root][k], q) != Some(SRef(root)) {
      assert ([k] + q)[1..] == q;
      assert Look(m, SRef(root), [k] + q) == Look(m, m.cells[root][k], q);
      assert Look(m, SRef(root), []) == Some(SRef(root));
    }
  }

  /** `setdefault` of every sibling on the rebuilt dict. */
  function WithSiblings(m: Mem, root: nat, siblings: map<string, Slot>): Mem
    requires root in m.cells
  {
    m.(cells := m.cells[root := siblings + m.cells[root]])
  }

  lemma SiblingsFrame(m: Mem, root: nat, siblings: map<string, Slot>, s: Slot)
    requires Closed(m) && root in m.cells && Live(m, s) && !Reaches(m, s, root)
    ensures SameLook(m, WithSiblings(m, root, siblings), s)
  {
    Framed(m, WithSiblings(m, root, siblings), s);
  }

  lemma SiblingsHold(m: Mem, root: nat, tree: Json, siblings: map<string, Slot>, stripped: Payload)
    requires Closed(m) && root in m.cells && Unshared(m, SRef(root)) && Holds(m, SRef(root), tree)
    requires siblings.Keys == set k | k in stripped && k !in RESERVED
    requires forall k :: k in siblings ==>
               Live(m, siblings[k]) && !Reaches(m, siblings[k], root) && Holds(m, siblings[k], stripped[k])
    ensures Holds(WithSiblings(m, root, siblings), SRef(root), Absorb(tree, stripped))
  {
    var m', r, j := WithSiblings(m, root, siblings), SRef(root), Absorb(tree, stripped);
    KeysHold(m, root, tree);
    forall q ensures SlotShape(Look(m', r, q)) == ShapeAt(j, q) {
      if q != [] {
        var k := q[0];
        if k in m.cells[root] {
          ChildMissesRoot(m, root, k);
          SiblingsFrame(m, root, siblings, m.cells[root][k]);
          EntryHolds(m, root, tree, k);
          assert SlotShape(Look(m, m.cells[root][k], q[1..])) == ShapeAt(tree.fields[k], q[1..]);
        } else if k in siblings {
          SiblingsFrame(m, root, siblings, siblings[k]);
          assert SlotShape(Look(m, siblings[k], q[1..])) == ShapeAt(stripped[k], q[1..]);
        }
      }
    }
  }

  lemma CopyStarts(m0: Mem, m: Mem, root: nat, payload: map<string, Slot>, jp: Payload, explicit: Json)
    requires PayloadOk(m0, payload, jp) && Closed(m) && Keeps(m0, m) && root in m.cells
    requires FreshTree(m, m0.next, SRef(root), explicit)
    ensures Progress(m0, m, root, payload, jp, explicit, []) && Footprint(m0, m, root, jp, explicit, [])
  {
    assert Reaches(m, SRef(root), root) by {
      assert Look(m, SRef(root), []) == Some(SRef(root));
    }
    forall k | k in payload ensures SameLook(m0, m, payload[k]) {
      KeepsLook(m0, m, payload[k]);
    }
    assert Tops(DottedOf(jp), explicit, []) == {};
    forall q ensures Owned(m0, m, root, {}, q) {
      var s := Look(m, SRef(root), q);
      if s.Some? && s.value.SRef? {
        assert Reaches(m, SRef(root), s.value.ref);
      }
    }
  }

  ghost predicate HoldsAll(m: Mem, out: map<string, Slot>, jout: Payload) {
    out.Keys == jout.Keys && forall k :: k in out ==> Holds(m, out[k], jout[k])
  }

  /** The caller can tell before the call whether one of its dicts will be written to. */
  ghost predicate WritesCaller(jp: Payload) {
    Repairable(jp) && exists b, k :: Grafts(jp, ExplicitOf(jp), DottedOf(jp), b, k)
  }

  /** No dotted value is an object: nothing of the caller's is written. */
  lemma PlainValuesAreSafe(jp: Payload)
    requires forall k :: k in DottedOf(jp) ==> !jp[k].Obj?
    ensures !WritesCaller(jp)
  {
  }

  /** `arguments.a` holding a dict and `arguments.a.b`: the caller's own dict gains the entry `b`. */
  lemma DictValueIsWritten(v: Json)
    ensures WritesCaller(map["arguments.a" := Obj(map[]), "arguments.a.b" := v])
  {
    var a, b := ["a"], ["a", "b"];
    var jp: Payload := map["arguments.a" := Obj(map[]), "arguments.a.b" := v];
    PathKeyInverse(a);
    PathKeyInverse(b);
    assert Join(a) == "a" && b[1..] == ["b"] && Join(b[1..]) == "b" && Join(b) == "a.b";
    assert KeyOf(a) == "arguments.a" && KeyOf(b) == "arguments.a.b";
    assert a < b && b[|a|..] == ["b"];
    assert forall k :: k in DottedOf(jp) ==> !(PathOf(k) < a);
    assert Top(DottedOf(jp), Obj(map[]), KeyOf(a));
    assert Grafts(jp, ExplicitOf(jp), DottedOf(jp), KeyOf(a), KeyOf(b));
  }

  lemma FootprintExact(m0: Mem, m: Mem, root: nat, jp: Payload, dotted: seq<string>)
    requires SortedEnum(dotted, DottedOf(jp)) && KeysOf(jp, dotted) && Repairable(jp)
    requires Footprint(m0, m, root, jp, ExplicitOf(jp), dotted)
    ensures Untouched(m0, m) <==> !WritesCaller(jp)
  {
    AllStarted(jp, ExplicitOf(jp), dotted);
    GraftsExactly(jp, ExplicitOf(jp), DottedOf(jp), dotted);
    forall b, k | Grafts(jp, ExplicitOf(jp), DottedOf(jp), b, k) ensures k in dotted {
    }
  }

  lemma StrippedHold(m0: Mem, m: Mem, root: nat, payload: map<string, Slot>, jp: Payload, explicit: Json,
                     dotted: seq<string>)
    requires PayloadOk(m0, payload, jp) && KeysOf(jp, dotted) && Progress(m0, m, root, payload, jp, explicit, dotted)
    ensures forall k :: k in payload && !IsDotted(k) ==>
              Live(m, payload[k]) && Holds(m, payload[k], jp[k]) && !Reaches(m, payload[k], root)
  {
    forall k | k in payload && !IsDotted(k)
      ensures Live(m, payload[k]) && Holds(m, payload[k], jp[k]) && !Reaches(m, payload[k], root)
    {
      Unprocessed(m0, m, root, payload, jp, explicit, dotted, k);
    }
  }

  /** A copy of the explicit arguments, or a new dict. */
  method StartTree(m0: Mem, payload: map<string, Slot>, ghost jp: Payload) returns (m: Mem, root: nat)
    requires PayloadOk(m0, payload, jp) && Repairable(jp)
    ensures Progress(m0, m, root, payload, jp, ExplicitOf(jp), []) && Footprint(m0, m, root, jp, ExplicitOf(jp), [])
  {
    ghost var explicit := ExplicitOf(jp);
    if "arguments" in payload {
      assert SlotShape(Look(m0, payload["arguments"], [])) == ShapeAt(jp["arguments"], []);
    }
    if "arguments" in payload && payload["arguments"].SRef? {
      m, root := CopyNestedDicts(m0, payload["arguments"].ref, explicit);
    } else {
      AllocHolds(m0, m0.next, map[], explicit);
      m, root := Alloc(m0, map[]), m0.next;
    }
    CopyStarts(m0, m, root, payload, jp, explicit);
  }

  /** Put the rebuilt dict into the envelope, absorbing bare siblings when it is new. */
  method Assemble(m1: Mem, root: nat, payload: map<string, Slot>, repaired: seq<string>, ghost jp: Payload,
                  ghost tree: Json)
    returns (m: Mem, out: map<string, Slot>)
    requires Closed(m1) && root in m1.cells && Unshared(m1, SRef(root)) && Holds(m1, SRef(root), tree)
    requires payload.Keys == jp.Keys
    requires forall k :: k in payload && !IsDotted(k) ==>
               Live(m1, payload[k]) && Holds(m1, payload[k], jp[k]) && !Reaches(m1, payload[k], root)
    ensures HoldsAll(m, out, Envelope(jp, tree, repaired))
    ensures forall c :: c in m1.cells && c != root ==> c in m.cells && m.cells[c] == m1.cells[c]
  {
    var stripped := map k | k in payload && !IsDotted(k) :: payload[k];
    m, out := m1, stripped;
    if "arguments" in payload {
      out := stripped["arguments" := SRef(root)];
    } else if repaired != [] {
      m, out := AbsorbSiblings(m1, root, stripped, Stripped(jp), tree);
    }
  }

  /** Move the bare siblings into the new dict, unless their name is taken there. */
  method AbsorbSiblings(m1: Mem, root: nat, stripped: map<string, Slot>, ghost js: Payload, ghost tree: Json)
    returns (m: Mem, out: map<string, Slot>)
    requires Closed(m1) && root in m1.cells && Unshared(m1, SRef(root)) && Holds(m1, SRef(root), tree)
    requires stripped.Keys == js.Keys
    requires forall k :: k in stripped ==>
               Live(m1, stripped[k]) && Holds(m1, stripped[k], js[k]) && !Reaches(m1, stripped[k], root)
    ensures HoldsAll(m, out, (map k | k in js && k in RESERVED :: js[k])["arguments" := Absorb(tree, js)])
    ensures forall c :: c in m1.cells && c != root ==> c in m.cells && m.cells[c] == m1.cells[c]
  {
    var siblings := map k | k in stripped && k !in RESERVED :: stripped[k];
    SiblingsHold(m1, root, tree, siblings, js);
    forall k | k in stripped ensures SameLook(m1, WithSiblings(m1, root, siblings), stripped[k]) {
      SiblingsFrame(m1, root, siblings, stripped[k]);
    }
    m := WithSiblings(m1, root, siblings);
    out := (map k | k in stripped && k in RESERVED :: stripped[k])["arguments" := SRef(root)];
  }

  lemma NothingWritten(jp: Payload, keys: seq<string>)
    requires SortedEnum(keys, DottedOf(jp)) && keys == []
    ensures !WritesCaller(jp)
  {
    assert forall k :: k in DottedOf(jp) ==> k in keys;
  }

  lemma ScalarArguments(m: Mem, payload: map<string, Slot>, jp: Payload)
    requires PayloadOk(m, payload, jp)
    ensures Repairable(jp) <==> !("arguments" in payload && payload["arguments"].SScalar?)
    ensures HoldsAll(m, map k | k in payload && !IsDotted(k) :: payload[k], Stripped(jp))
  {
    if "arguments" in payload {
      assert SlotShape(Look(m, payload["arguments"], [])) == ShapeAt(jp["arguments"], []);
    }
  }

  /** The repair proper: start the tree, place the dotted keys, assemble the envelope. */
  method RepairPayload(m0: Mem, payload: map<string, Slot>, keys: seq<string>, ghost jp: Payload)
    returns (m: Mem, out: map<string, Slot>, repaired: seq<string>, skipped: seq<string>)
    requires PayloadOk(m0, payload, jp) && Repairable(jp) && keys != []
    requires SortedEnum(keys, DottedOf(jp)) && KeysOf(jp, keys)
    ensures var r := Reconstruct(jp, keys);
            HoldsAll(m, out, r.payload) && repaired == r.repaired && skipped == r.skipped
    ensures Untouched(m0, m) <==> !WritesCaller(jp)
  {
    var root;
    m, root := StartTree(m0, payload, jp);
    m, repaired, skipped := RepairLoop(m0, m, root, payload, keys, jp, ExplicitOf(jp));
    FootprintExact(m0, m, root, jp, keys);
    StrippedHold(m0, m, root, payload, jp, ExplicitOf(jp), keys);
    ghost var before := m;
    m, out := Assemble(m, root, payload, repaired, jp, Rebuild(jp, ExplicitOf(jp), keys).tree);
    assert Untouched(m0, m) <==> Untouched(m0, before);
  }

  /** `_reconstruct_dotted_arguments` on mutable dicts. */
  method ReconstructDottedArguments(m0: Mem, payload: map<string, Slot>, ghost jp: Payload)
    returns (m: Mem, out: map<string, Slot>, repaired: seq<string>, skipped: seq<string>, ghost dotted: seq<string>)
    requires PayloadOk(m0, payload, jp)
    ensures SortedEnum(dotted, DottedOf(jp)) && KeysOf(jp, dotted)
    ensures var r := Reconstruct(jp, dotted);
            HoldsAll(m, out, r.payload) && repaired == r.repaired && skipped == r.skipped
    ensures Untouched(m0, m) <==> !WritesCaller(jp)
  {
    var keys := SortKeys(set k | k in payload && IsDotted(k));
    dotted := keys;
    assert (set k | k in payload && IsDotted(k)) == DottedOf(jp);
    m, out, repaired, skipped := m0, payload, [], [];
    if keys == [] {
      NothingWritten(jp, keys);
      return;
    }
    ScalarArguments(m0, payload, jp);
    if "arguments" in payload && payload["arguments"].SScalar? {
      out, skipped := map k | k in payload && !IsDotted(k) :: payload[k], keys;
      return;
    }
    m, out, repaired, skipped := RepairPayload(m0, payload, keys, jp);
  }

  lemma EmptyDictHolds()
    ensures Holds(Mem(map[0 := map[]], 1), SRef(0), Obj(map[])) && Unshared(Mem(map[0 := map[]], 1), SRef(0))
  {
    var m := Mem(map[0 := map[]], 1);
    forall q ensures SlotShape(Look(m, SRef(0), q)) == ShapeAt(Obj(map[]), q) {
    }
    forall q ensures Look(m, SRef(0), q).Some? ==> q == [] {
    }
  }

  lemma ScalarHolds(m: Mem, text: string)
    ensures Holds(m, SScalar(text), Scalar(text)) && Unshared(m, SScalar(text))
    ensures forall c :: !Reaches(m, SScalar(text), c)
  {
    forall q ensures SlotShape(Look(m, SScalar(text), q)) == ShapeAt(Scalar(text), q) {
    }
  }

  /** The call itself: a payload with the dict `{}` under `arguments.a` and a value under
      `arguments.a.b` comes back repaired, and the caller's dict is not what it was. */
  method RepairWritesCaller(text: string) returns (m0: Mem, payload: map<string, Slot>, m: Mem)
    ensures m0 == Mem(map[0 := map[]], 1)
    ensures payload == map["arguments.a" := SRef(0), "arguments.a.b" := SScalar(text)]
    ensures !Untouched(m0, m)
  {
    m0 := Mem(map[0 := map[]], 1);
    payload := map["arguments.a" := SRef(0), "arguments.a.b" := SScalar(text)];
    ghost var jp: Payload := map["arguments.a" := Obj(map[]), "arguments.a.b" := Scalar(text)];
    EmptyDictHolds();
    ScalarHolds(m0, text);
    DictValueIsWritten(Scalar(text));
    var out, repaired, skipped;
    ghost var dotted;
    m, out, repaired, skipped, dotted := ReconstructDottedArguments(m0, payload, jp);
  }
}
