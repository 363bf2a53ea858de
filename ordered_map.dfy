/**
 * JavaScript's `Map`: entries kept in insertion order, keys compared by
 * value. `set` on a present key replaces its value in place, `set` on a new
 * key appends an entry, and `delete` removes the entry.
 */
module OrderedMaps {
  import opened JsValue

  datatype Entry<K, V> = Entry(key: K, value: V)

  /** The entries of a map, in the order `forEach` visits them. */
  type OMap<K, V> = seq<Entry<K, V>>

  function KeysOf<K, V>(m: OMap<K, V>): (ks: seq<K>)
    ensures |ks| == |m|
    ensures forall i :: 0 <= i < |m| ==> ks[i] == m[i].key
  {
    if m == [] then [] else [m[0].key] + KeysOf(m[1..])
  }

  /** `m.has(k)`. */
  predicate Has<K(==), V>(m: OMap<K, V>, k: K)
  {
    k in KeysOf(m)
  }

  /** `m.get(k)`: the value of the entry with key `k`, if any. */
  function Find<K(==), V>(m: OMap<K, V>, k: K): (r: Option<V>)
    ensures r.Some? <==> Has(m, k)
  {
    if m == [] then None
    else if m[0].key == k then Some(m[0].value)
    else
      Find(m[1..], k)
  }

  /** `m.set(k, v)`. */
  function Put<K(==, !new), V>(m: OMap<K, V>, k: K, v: V): (r: OMap<K, V>)
    ensures Find(r, k) == Some(v)
    ensures forall k' :: k' != k ==> Find(r, k') == Find(m, k')
  {
    if m == [] then [Entry(k, v)]
    else
      assert m == [m[0]] + m[1..];
      FindCons(m[0], m[1..]);
      if m[0].key == k then
        FindCons(Entry(k, v), m[1..]);
        [Entry(k, v)] + m[1..]
      else
        var rest := Put(m[1..], k, v);
        FindCons(m[0], rest);
        [m[0]] + rest
  }

  /** `set` keeps the order of the keys and appends a new key at the end. */
  lemma {:induction false} PutKeys<K(!new), V>(m: OMap<K, V>, k: K, v: V)
    ensures Has(m, k) ==> KeysOf(Put(m, k, v)) == KeysOf(m)
    ensures !Has(m, k) ==> KeysOf(Put(m, k, v)) == KeysOf(m) + [k]
  {
    if m != [] {
      assert m == [m[0]] + m[1..];
      KeysCons(m[0], m[1..]);
      if m[0].key == k {
        KeysCons(Entry(k, v), m[1..]);
      } else {
        PutKeys(m[1..], k, v);
        KeysCons(m[0], Put(m[1..], k, v));
        AppendAssoc([m[0].key], KeysOf(m[1..]), [k]);
      }
    }
  }

  lemma AppendAssoc<T>(a: seq<T>, b: seq<T>, c: seq<T>)
    ensures a + (b + c) == a + b + c
  {
  }

  /** The keys of a map with one more entry in front. */
  lemma KeysCons<K, V>(e: Entry<K, V>, t: OMap<K, V>)
    ensures KeysOf([e] + t) == [e.key] + KeysOf(t)
  {
    assert ([e] + t)[1..] == t;
  }

  /** Lookups in a map with one more entry in front. */
  lemma FindCons<K, V>(e: Entry<K, V>, t: OMap<K, V>)
    ensures forall k :: Find([e] + t, k) == if e.key == k then Some(e.value) else Find(t, k)
  {
    assert ([e] + t)[1..] == t;
  }

  /** `m.delete(k)`. */
  function Remove<K(==, !new), V>(m: OMap<K, V>, k: K): (r: OMap<K, V>)
    ensures !Has(r, k)
    ensures forall k' :: k' != k ==> Find(r, k') == Find(m, k')
    ensures |r| <= |m|
  {
    if m == [] then []
    else if m[0].key == k then Remove(m[1..], k)
    else [m[0]] + Remove(m[1..], k)
  }

  /** No key occurs twice, as in every map JavaScript builds. */
  predicate Distinct<K(==), V>(m: OMap<K, V>)
  {
    forall i, j :: 0 <= i < j < |m| ==> m[i].key != m[j].key
  }

  /** `set` keeps keys distinct, so `size` counts the distinct keys. */
  lemma PutDistinct<K(!new), V>(m: OMap<K, V>, k: K, v: V)
    requires Distinct(m)
    ensures Distinct(Put(m, k, v))
  {
    var r := Put(m, k, v);
    PutKeys(m, k, v);
    var ks, km := KeysOf(r), KeysOf(m);
    forall i, j | 0 <= i < j < |r| ensures r[i].key != r[j].key {
      assert ks[i] == r[i].key && ks[j] == r[j].key;
      if j < |m| {
        assert ks[i] == km[i] && ks[j] == km[j];
      } else {
        assert ks[j] == k && ks[i] == km[i] && km[i] in km;
      }
    }
  }

  /** In a map with distinct keys, the entry holding a key is the one `get` reads. */
  lemma FindAt<K, V>(m: OMap<K, V>, i: nat)
    requires Distinct(m) && i < |m|
    ensures Find(m, m[i].key) == Some(m[i].value)
  {
    if i > 0 && m[0].key != m[i].key {
      FindAt(m[1..], i - 1);
    }
  }
}
