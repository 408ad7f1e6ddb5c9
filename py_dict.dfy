/** Python dictionaries keyed by strings: a map together with the order in which its keys were
    first inserted, which is the order `items()` and `keys()` follow. */
module PyDict {
  import opened Seqs

  datatype Dict<V> = Dict(keys: seq<string>, entries: map<string, V>)

  /** The keys are distinct and are exactly the keys of the map. */
  predicate Valid<V>(d: Dict<V>)
  {
    && (forall i, j :: 0 <= i < j < |d.keys| ==> d.keys[i] != d.keys[j])
    && (forall k :: k in d.entries ==> k in d.keys)
    && (forall i :: 0 <= i < |d.keys| ==> d.keys[i] in d.entries)
  }

  /** Changing the values only keeps a dict well formed. */
  lemma SameShapeValid<V>(a: Dict<V>, b: Dict<V>)
    requires Valid(a) && b.keys == a.keys && b.entries.Keys == a.entries.Keys
    ensures Valid(b)
  {
  }

  /** Two dicts with the same keys in the same order have maps with the same domain. */
  lemma SameKeysSameDomain<V>(a: Dict<V>, b: Dict<V>)
    requires Valid(a) && Valid(b) && a.keys == b.keys
    ensures a.entries.Keys == b.entries.Keys
  {
    forall k | k in a.entries
      ensures k in b.entries
    {
      var i :| 0 <= i < |a.keys| && a.keys[i] == k;
      assert b.keys[i] == k;
    }
    forall k | k in b.entries
      ensures k in a.entries
    {
      var i :| 0 <= i < |b.keys| && b.keys[i] == k;
      assert a.keys[i] == k;
    }
  }

  /** Maps with the same keys and the same value at each key are equal. */
  lemma SameMaps<V>(a: map<string, V>, b: map<string, V>)
    requires a.Keys == b.Keys
    requires forall k :: k in a ==> a[k] == b[k]
    ensures a == b
  {
  }

  function Empty<V>(): (r: Dict<V>)
    ensures Valid(r) && r.keys == [] && r.entries == map[]
  {
    Dict([], map[])
  }

  /** `d[k] = v`: the value is replaced in place, or the key is added at the end. */
  function Put<V>(d: Dict<V>, k: string, v: V): (r: Dict<V>)
    requires Valid(d)
    ensures Valid(r)
    ensures r.entries == d.entries[k := v]
    ensures k in d.entries ==> r.keys == d.keys
    ensures k !in d.entries ==> r.keys == d.keys + [k]
  {
    if k in d.entries then Dict(d.keys, d.entries[k := v]) else Dict(d.keys + [k], d.entries[k := v])
  }

  /** The test `x != k`. */
  function Other(k: string): string -> bool
  {
    x => x != k
  }

  /** `del d[k]`: the key goes, the other keys keep their order. */
  function Remove<V>(d: Dict<V>, k: string): (r: Dict<V>)
    requires Valid(d)
    ensures Valid(r)
    ensures r.entries == d.entries - {k}
    ensures r.keys == Filter(d.keys, Other(k))
  {
    var keys := Filter(d.keys, Other(k));
    forall x | x in d.entries && x != k
      ensures x in keys
    {
      FilterMembers(d.keys, Other(k), x);
    }
    FilterDistinct(d.keys, Other(k));
    assert forall i :: 0 <= i < |keys| ==> keys[i] in keys && Other(k)(keys[i]) == (keys[i] != k);
    Dict(keys, d.entries - {k})
  }

  /** Removing a key keeps only values that were there; the first remaining key, if any, is
      present. */
  lemma RemoveValues<V>(d: Dict<V>, k: string)
    requires Valid(d)
    ensures Remove(d, k).entries.Values <= d.entries.Values
    ensures Remove(d, k).keys == [] <==> Remove(d, k).entries == map[]
    ensures Remove(d, k).keys != [] ==> Remove(d, k).keys[0] in Remove(d, k).entries
  {
    var r := Remove(d, k);
    forall v | v in r.entries.Values ensures v in d.entries.Values {
      var x :| x in r.entries && r.entries[x] == v;
    }
    if r.keys != [] {
      assert r.keys[0] in r.entries;
    }
  }

  /** Filtering keeps distinct elements distinct. */
  lemma {:induction false} FilterDistinct<T>(xs: seq<T>, p: T -> bool)
    requires forall i, j :: 0 <= i < j < |xs| ==> xs[i] != xs[j]
    ensures forall i, j :: 0 <= i < j < |Filter(xs, p)| ==> Filter(xs, p)[i] != Filter(xs, p)[j]
  {
    if |xs| > 0 {
      var init := xs[..|xs| - 1];
      var last := xs[|xs| - 1];
      FilterDistinct(init, p);
      assert last !in init by {
        forall i | 0 <= i < |init|
          ensures init[i] != last
        {
          assert init[i] == xs[i];
        }
      }
      var ri := Filter(init, p);
      var r := Filter(xs, p);
      assert r == ri + (if p(last) then [last] else []);
      forall i, j | 0 <= i < j < |r|
        ensures r[i] != r[j]
      {
        if j == |ri| {
          assert r[i] == ri[i] && ri[i] in ri && r[j] == last;
        } else {
          assert r[i] == ri[i] && r[j] == ri[j];
        }
      }
    }
  }
}
