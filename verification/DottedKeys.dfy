/** Flat `arguments.`-prefixed keys, the paths they spell, and the order `sorted` gives them. */
module DottedKeys {

  const PREFIX: string := "arguments."

  /** A non-empty list of segments, as `str.split(".")` returns it. */
  type Path = seq<string>

  function Split(s: string): (p: Path)
    ensures |p| >= 1
  {
    if s == "" then [""]
    else
      var rest := Split(s[1..]);
      if s[0] == '.' then [""] + rest else [[s[0]] + rest[0]] + rest[1..]
  }

  function Join(p: Path): string
    requires |p| >= 1
  {
    if |p| == 1 then p[0] else p[0] + "." + Join(p[1..])
  }

  predicate DotFree(p: Path) {
    forall i :: 0 <= i < |p| ==> '.' !in p[i]
  }

  lemma {:induction false} JoinSplit(s: string)
    ensures Join(Split(s)) == s && DotFree(Split(s))
  {
    if s != "" {
      JoinSplit(s[1..]);
      var rest := Split(s[1..]);
      if s[0] == '.' {
        assert Split(s)[1..] == rest;
        assert s == "." + s[1..];
      } else {
        assert s == [s[0]] + s[1..];
        if |rest| > 1 {
          assert Split(s)[1..] == rest[1..];
        }
      }
    }
  }

  lemma {:induction false} SplitJoin(p: Path)
    requires |p| >= 1 && DotFree(p)
    ensures Split(Join(p)) == p
    decreases |Join(p)|
  {
    var s := Join(p);
    if p[0] == "" {
      if |p| > 1 {
        SplitJoin(p[1..]);
        assert s == "." + Join(p[1..]);
        assert p == [""] + p[1..];
      }
    } else {
      var q := [p[0][1..]] + p[1..];
      assert s[1..] == Join(q);
      assert DotFree(q);
      SplitJoin(q);
      assert s[0] == p[0][0] && '.' != s[0];
      assert [p[0][0]] + q[0] == p[0];
      assert p == [p[0]] + q[1..];
    }
  }

  predicate IsDotted(k: string) {
    PREFIX <= k
  }

  function PathOf(k: string): (p: Path)
    requires IsDotted(k)
    ensures |p| >= 1
  {
    Split(k[|PREFIX|..])
  }

  function KeyOf(p: Path): (k: string)
    requires |p| >= 1
    ensures IsDotted(k)
  {
    PREFIX + Join(p)
  }

  /** Keys and paths determine each other. */
  lemma KeyPathInverse(k: string)
    requires IsDotted(k)
    ensures KeyOf(PathOf(k)) == k && DotFree(PathOf(k))
  {
    JoinSplit(k[|PREFIX|..]);
  }

  lemma PathKeyInverse(p: Path)
    requires |p| >= 1 && DotFree(p)
    ensures PathOf(KeyOf(p)) == p
  {
    SplitJoin(p);
    assert KeyOf(p)[|PREFIX|..] == Join(p);
  }

  // --- Lexicographic order ----------------------------------------------

  /** Python's `<` on strings. */
  predicate Less(a: string, b: string) {
    b != "" && (a == "" || a[0] < b[0] || (a[0] == b[0] && Less(a[1..], b[1..])))
  }

  lemma {:induction false} LessTotal(a: string, b: string)
    ensures !(Less(a, b) && Less(b, a))
    ensures Less(a, b) || a == b || Less(b, a)
    ensures !Less(a, a)
  {
    if a != "" {
      LessTotal(a[1..], if b == "" then b else b[1..]);
      if b != "" && a[0] == b[0] && a[1..] == b[1..] {
        assert a == [a[0]] + a[1..] == b;
      }
    }
  }

  lemma {:induction false} LessTrans(a: string, b: string, c: string)
    requires Less(a, b) && Less(b, c)
    ensures Less(a, c)
  {
    if a != "" && a[0] == b[0] == c[0] {
      LessTrans(a[1..], b[1..], c[1..]);
    }
  }

  lemma {:induction false} ExtensionIsLess(a: string, b: string)
    requires b != ""
    ensures Less(a, a + b)
  {
    if a != "" {
      ExtensionIsLess(a[1..], b);
      assert (a + b)[1..] == a[1..] + b;
    }
  }

  lemma {:induction false} JoinExtends(p: Path, q: Path)
    requires |p| >= 1 && |q| >= 1
    ensures Join(p + q) == Join(p) + "." + Join(q)
  {
    if |p| == 1 {
      assert (p + q)[1..] == q;
    } else {
      JoinExtends(p[1..], q);
      assert (p + q)[1..] == p[1..] + q;
    }
  }

  /** A key whose path is a proper prefix of another key's path is sorted before it. */
  lemma PrefixSortsFirst(a: string, b: string)
    requires IsDotted(a) && IsDotted(b) && PathOf(a) < PathOf(b)
    ensures Less(a, b)
  {
    var p, q := PathOf(a), PathOf(b);
    KeyPathInverse(a);
    KeyPathInverse(b);
    assert q == p + q[|p|..];
    JoinExtends(p, q[|p|..]);
    assert b == a + ("." + Join(q[|p|..]));
    ExtensionIsLess(a, "." + Join(q[|p|..]));
  }

  ghost predicate Sorted(keys: seq<string>) {
    forall i, j :: 0 <= i < j < |keys| ==> Less(keys[i], keys[j])
  }

  /** `keys` is `sorted(s)`. */
  ghost predicate SortedEnum(keys: seq<string>, s: set<string>) {
    Sorted(keys) && forall k :: k in keys <==> k in s
  }

  /** `sorted` on a set of strings, by insertion. */
  method SortKeys(s: set<string>) returns (keys: seq<string>)
    ensures SortedEnum(keys, s)
  {
    keys := [];
    var todo := s;
    while todo != {}
      invariant todo <= s && SortedEnum(keys, s - todo)
    {
      var k :| k in todo;
      var i := 0;
      while i < |keys| && Less(keys[i], k)
        invariant i <= |keys| && forall j :: 0 <= j < i ==> Less(keys[j], k)
      {
        i := i + 1;
      }
      InsertSorted(keys, k, i);
      keys := keys[..i] + [k] + keys[i..];
      todo := todo - {k};
    }
    assert s - todo == s;
  }

  lemma InsertSorted(keys: seq<string>, k: string, i: nat)
    requires Sorted(keys) && k !in keys && i <= |keys|
    requires forall j :: 0 <= j < i ==> Less(keys[j], k)
    requires i < |keys| ==> !Less(keys[i], k)
    ensures Sorted(keys[..i] + [k] + keys[i..])
    ensures forall x :: x in keys[..i] + [k] + keys[i..] <==> x == k || x in keys
  {
    assert keys == keys[..i] + keys[i..];
    forall j | i <= j < |keys| ensures Less(k, keys[j]) {
      LessTotal(k, keys[i]);
      if j > i {
        LessTrans(k, keys[i], keys[j]);
      }
    }
  }
}
