/** Python dicts as sequences of items: assignment keeps the position of a key that is present and appends a new one. */
module OrderedDict {

  type Dict<V> = seq<(string, V)>

  ghost predicate Distinct<V>(d: Dict<V>) {
    forall i, j :: 0 <= i < j < |d| ==> d[i].0 != d[j].0
  }

  /** Position of a key, or the number of items. */
  function Find<V>(d: Dict<V>, k: string): (i: nat)
    ensures i <= |d| && (i < |d| ==> d[i].0 == k)
    ensures forall j :: 0 <= j < i ==> d[j].0 != k
  {
    if d == [] || d[0].0 == k then 0 else 1 + Find(d[1..], k)
  }

  predicate Has<V>(d: Dict<V>, k: string) {
    Find(d, k) < |d|
  }

  function Get<V>(d: Dict<V>, k: string): V
    requires Has(d, k)
  {
    d[Find(d, k)].1
  }

  function Put<V>(d: Dict<V>, k: string, v: V): Dict<V> {
    if Has(d, k) then d[Find(d, k) := (k, v)] else d + [(k, v)]
  }

  function Del<V>(d: Dict<V>, k: string): Dict<V> {
    if Has(d, k) then d[..Find(d, k)] + d[Find(d, k) + 1..] else d
  }

  function ToMap<V>(d: Dict<V>): map<string, V> {
    if d == [] then map[] else ToMap(d[1..])[d[0].0 := d[0].1]
  }

  lemma {:induction false} Lookup<V>(d: Dict<V>, k: string)
    ensures k in ToMap(d) <==> Has(d, k)
    ensures Has(d, k) ==> ToMap(d)[k] == Get(d, k)
  {
    if d != [] {
      Lookup(d[1..], k);
    }
  }

  lemma Item<V>(d: Dict<V>, i: nat)
    requires Distinct(d) && i < |d|
    ensures d[i].0 in ToMap(d) && ToMap(d)[d[i].0] == d[i].1
  {
    Lookup(d, d[i].0);
  }

  lemma Unique<V>(d: Dict<V>, i: nat)
    requires Distinct(d) && i < |d|
    ensures Find(d, d[i].0) == i
  {
  }

  lemma PutMap<V>(d: Dict<V>, k: string, v: V)
    requires Distinct(d)
    ensures Distinct(Put(d, k, v)) && ToMap(Put(d, k, v)) == ToMap(d)[k := v]
  {
    var e := Put(d, k, v);
    forall x ensures Has(e, x) <==> Has(d, x) || x == k
      ensures Has(e, x) ==> Get(e, x) == if x == k then v else Get(d, x)
    {
      if Has(d, x) {
        assert e[Find(d, x)].0 == x;
      }
      assert e[if Has(d, k) then Find(d, k) else |d|].0 == k;
      if Has(e, x) && x != k {
        assert d[Find(e, x)].0 == x;
      }
    }
    forall x ensures x in ToMap(e) <==> x in ToMap(d)[k := v]
      ensures x in ToMap(e) ==> ToMap(e)[x] == ToMap(d)[k := v][x]
    {
      Lookup(e, x);
      Lookup(d, x);
    }
  }

  lemma DelMap<V>(d: Dict<V>, k: string)
    requires Distinct(d)
    ensures Distinct(Del(d, k)) && ToMap(Del(d, k)) == ToMap(d) - {k}
  {
    var e, at := Del(d, k), Find(d, k);
    forall x ensures Has(e, x) <==> Has(d, x) && x != k
      ensures Has(e, x) ==> Get(e, x) == Get(d, x)
    {
      if Has(d, k) && Has(d, x) && x != k {
        var i := Find(d, x);
        assert e[if i < at then i else i - 1].0 == x;
      }
      if Has(e, x) && Has(d, k) {
        var i := Find(e, x);
        assert d[if i < at then i else i + 1] == e[i];
      }
    }
    forall x ensures x in ToMap(e) <==> x in ToMap(d) - {k}
      ensures x in ToMap(e) ==> ToMap(e)[x] == ToMap(d)[x]
    {
      Lookup(e, x);
      Lookup(d, x);
    }
  }
}
