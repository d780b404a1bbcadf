/** Server ids, namespaced capability names and their parsing. */
module Namespace {
  import opened Prelude

  const DELIMITER: string := "__"

  predicate IsAlnum(c: char) {
    'a' <= c <= 'z' || 'A' <= c <= 'Z' || '0' <= c <= '9'
  }

  /** Every character outside `[a-zA-Z0-9]` becomes an underscore. */
  function SafeServerId(name: string): (id: string)
    ensures |id| == |name|
    ensures forall i :: 0 <= i < |id| ==> id[i] == if IsAlnum(name[i]) then name[i] else '_'
  {
    if name == "" then "" else [if IsAlnum(name[0]) then name[0] else '_'] + SafeServerId(name[1..])
  }

  function NamespaceName(id: string, name: string): string {
    id + DELIMITER + name
  }

  predicate DelimiterAt(s: string, i: int) {
    0 <= i && i + 2 <= |s| && s[i] == '_' && s[i + 1] == '_'
  }

  /** Position of the first delimiter, or the length of the string. */
  function FindDelimiter(s: string): (i: nat)
    ensures i <= |s|
    ensures i < |s| ==> DelimiterAt(s, i)
    ensures forall j :: 0 <= j < i ==> !DelimiterAt(s, j)
  {
    if s == "" || DelimiterAt(s, 0) then 0
    else
      var i := FindDelimiter(s[1..]);
      assert forall j :: 0 < j < |s| ==> (DelimiterAt(s, j) <==> DelimiterAt(s[1..], j - 1));
      1 + i
  }

  /** Split at the first delimiter; None is the ValueError for a name without one. */
  function ParseNamespaced(s: string): Option<(string, string)> {
    var i := FindDelimiter(s);
    if i == |s| then None else Some((s[..i], s[i + 2..]))
  }

  /** Holds no delimiter and does not end in an underscore. */
  predicate Clean(id: string) {
    (forall i :: 0 <= i < |id| ==> !DelimiterAt(id, i)) && (id == "" || id[|id| - 1] != '_')
  }

  /** Parsing undoes namespacing exactly for clean ids, whatever the capability is called. */
  lemma ParseRecovers(id: string, name: string)
    ensures ParseNamespaced(NamespaceName(id, name)) == Some((id, name)) <==> Clean(id)
  {
    var s := NamespaceName(id, name);
    assert DelimiterAt(s, |id|);
    assert s[..|id|] == id && s[|id| + 2..] == name;
    forall j | 0 <= j < |id| ensures DelimiterAt(s, j) <==> DelimiterAt(id, j) || (j == |id| - 1 && id[j] == '_') {
    }
    var i := FindDelimiter(s);
    if Clean(id) {
      assert i == |id|;
    } else {
      var j :| 0 <= j < |id| && (DelimiterAt(id, j) || (j == |id| - 1 && id[j] == '_'));
      assert DelimiterAt(s, j);
      assert i <= j;
      assert |s[..i]| < |id|;
    }
  }

  /** Namespacing with clean ids is injective. */
  lemma NamespaceInjective(id1: string, name1: string, id2: string, name2: string)
    requires Clean(id1) && Clean(id2) && NamespaceName(id1, name1) == NamespaceName(id2, name2)
    ensures id1 == id2 && name1 == name2
  {
    ParseRecovers(id1, name1);
    ParseRecovers(id2, name2);
  }

  /** With one id, names never collide. */
  lemma NamespaceKeepsName(id: string, name1: string, name2: string)
    requires NamespaceName(id, name1) == NamespaceName(id, name2)
    ensures name1 == name2
  {
    assert NamespaceName(id, name1)[|id| + 2..] == name1;
    assert NamespaceName(id, name2)[|id| + 2..] == name2;
  }

  // ---------------------------------------------------------------------
  // make_unique_id
  // ---------------------------------------------------------------------

  function Decimal(n: nat): (s: string)
    ensures s != "" && forall i :: 0 <= i < |s| ==> '0' <= s[i] <= '9'
  {
    var digit := [('0' as int + n % 10) as char];
    if n < 10 then digit else Decimal(n / 10) + digit
  }

  function Undecimal(s: string): int {
    if s == "" then 0 else 10 * Undecimal(s[..|s| - 1]) + (s[|s| - 1] as int - '0' as int)
  }

  lemma {:induction false} DecimalInverse(n: nat)
    ensures Undecimal(Decimal(n)) == n
  {
    var s := Decimal(n);
    if n >= 10 {
      DecimalInverse(n / 10);
      assert s[..|s| - 1] == Decimal(n / 10);
    } else {
      assert s[..|s| - 1] == "";
    }
  }

  function Numbered(base: string, n: nat): string {
    base + "_" + Decimal(n)
  }

  lemma NumberedInjective(base: string, m: nat, n: nat)
    requires Numbered(base, m) == Numbered(base, n)
    ensures m == n
  {
    DecimalInverse(m);
    DecimalInverse(n);
    assert Numbered(base, m)[|base| + 1..] == Decimal(m);
    assert Numbered(base, n)[|base| + 1..] == Decimal(n);
  }

  /** The ids that block counters from `n` on; finitely many, so the counter stops. */
  ghost function Blocking(base: string, existing: set<string>, n: nat): set<string> {
    set s | s in existing && exists m: nat :: m >= n && s == Numbered(base, m)
  }

  lemma BlockingShrinks(base: string, existing: set<string>, n: nat)
    requires Numbered(base, n) in existing
    ensures |Blocking(base, existing, n + 1)| < |Blocking(base, existing, n)|
  {
    var a, b := Blocking(base, existing, n), Blocking(base, existing, n + 1);
    assert Numbered(base, n) in a;
    assert Numbered(base, n) !in b by {
      forall m: nat | Numbered(base, m) == Numbered(base, n) ensures m == n {
        NumberedInjective(base, m, n);
      }
    }
    assert b <= a - {Numbered(base, n)};
    SubsetSize(b, a - {Numbered(base, n)});
  }

  function FirstFree(base: string, existing: set<string>, n: nat): (m: nat)
    ensures m >= n && Numbered(base, m) !in existing
    ensures forall i: nat :: n <= i < m ==> Numbered(base, i) in existing
    decreases |Blocking(base, existing, n)|
  {
    if Numbered(base, n) !in existing then n
    else
      BlockingShrinks(base, existing, n);
      FirstFree(base, existing, n + 1)
  }

  /** The counters from two on are taken up to this one. */
  ghost predicate TakenBelow(base: string, existing: set<string>, n: nat) {
    n >= 2 && forall m: nat :: 2 <= m < n ==> Numbered(base, m) in existing
  }

  function UniqueId(base: string, existing: set<string>): (id: string)
    ensures id !in existing
    ensures base !in existing ==> id == base
    ensures base in existing ==> exists n: nat :: TakenBelow(base, existing, n) && id == base + "_" + Decimal(n)
  {
    if base !in existing then base
    else
      var n := FirstFree(base, existing, 2);
      assert TakenBelow(base, existing, n);
      Numbered(base, n)
  }

  /** Terminates for every finite id set with a new id: the base, or the base with the least free counter. */
  method MakeUniqueId(base: string, existing: set<string>) returns (id: string)
    ensures id == UniqueId(base, existing)
    ensures id !in existing
  {
    if base !in existing {
      return base;
    }
    var counter: nat := 2;
    while Numbered(base, counter) in existing
      invariant FirstFree(base, existing, counter) == FirstFree(base, existing, 2)
      decreases |Blocking(base, existing, counter)|
    {
      BlockingShrinks(base, existing, counter);
      counter := counter + 1;
    }
    id := Numbered(base, counter);
  }
}
