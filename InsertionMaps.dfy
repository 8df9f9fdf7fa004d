/**
 * JavaScript `Map` semantics: entries kept in insertion order, where setting
 * a key that is already present overwrites its value in place and setting a
 * new key appends it. `Array.from(map.values())` and `map.size` read it.
 */
module InsertionMaps {
  import opened Options

  type Entries<K, V> = seq<(K, V)>

  function Keys<K, V>(m: Entries<K, V>): (r: seq<K>)
    ensures |r| == |m|
    ensures forall i :: 0 <= i < |m| ==> r[i] == m[i].0
  {
    if m == [] then [] else [m[0].0] + Keys(m[1..])
  }

  function Values<K, V>(m: Entries<K, V>): (r: seq<V>)
    ensures |r| == |m|
    ensures forall i :: 0 <= i < |m| ==> r[i] == m[i].1
  {
    if m == [] then [] else [m[0].1] + Values(m[1..])
  }

  predicate Distinct<K(==)>(ks: seq<K>) {
    forall i, j :: 0 <= i < j < |ks| ==> ks[i] != ks[j]
  }

  /** `map.get(k)`: the value stored under the first entry with key `k`. */
  function Get<K(==), V>(m: Entries<K, V>, k: K): (r: Option<V>)
    ensures r.None? <==> k !in Keys(m)
  {
    if m == [] then None
    else if m[0].0 == k then Some(m[0].1)
    else Get(m[1..], k)
  }

  /**
   * `map.set(k, v)`: an existing key keeps its position and takes the new
   * value; a new key goes to the end. Keys stay distinct, `k` now maps to
   * `v`, every other key keeps its value, and the size grows by one exactly
   * when `k` is new.
   */
  function Set<K(==, !new), V>(m: Entries<K, V>, k: K, v: V): (r: Entries<K, V>)
    ensures k in Keys(m) ==> Keys(r) == Keys(m)
    ensures k !in Keys(m) ==> Keys(r) == Keys(m) + [k]
    ensures Get(r, k) == Some(v)
    ensures forall j :: j != k ==> Get(r, j) == Get(m, j)
    ensures Distinct(Keys(m)) ==> Distinct(Keys(r))
  {
    if m == [] then [(k, v)]
    else if m[0].0 == k then [(k, v)] + m[1..]
    else [m[0]] + Set(m[1..], k, v)
  }

  /** Setting a new key appends exactly one entry at the end. */
  lemma {:induction false} SetAppendsNew<K(!new), V>(m: Entries<K, V>, k: K, v: V)
    requires k !in Keys(m)
    ensures Set(m, k, v) == m + [(k, v)]
  {
    if m != [] {
      assert Keys(m) == [m[0].0] + Keys(m[1..]);
      SetAppendsNew(m[1..], k, v);
      assert m == [m[0]] + m[1..];
    }
  }

  /** Setting a present key rewrites its entry where it stands and leaves every other entry alone. */
  lemma {:induction false} SetOverwritesInPlace<K(!new), V>(m: Entries<K, V>, k: K, v: V)
    requires k in Keys(m) && Distinct(Keys(m))
    ensures |Set(m, k, v)| == |m|
    ensures forall i :: 0 <= i < |m| ==> Set(m, k, v)[i] == (if m[i].0 == k then (k, v) else m[i])
  {
    assert Keys(m) == [m[0].0] + Keys(m[1..]);
    if m[0].0 == k {
      assert forall i :: 1 <= i < |m| ==> Keys(m)[i] != Keys(m)[0];
    } else {
      assert Distinct(Keys(m[1..])) by {
        assert forall i :: 0 <= i < |m| - 1 ==> Keys(m[1..])[i] == Keys(m)[i + 1];
      }
      SetOverwritesInPlace(m[1..], k, v);
    }
  }
}
