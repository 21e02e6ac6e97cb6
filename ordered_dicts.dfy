/** Python's insertion-ordered `dict`, as a sequence of key/value pairs: assigning to a
    present key keeps its position, a new key goes to the end, and `update` assigns the
    other dictionary's pairs in its order. */
module OrderedDicts {
  import opened Wrappers

  type Dict<K, V> = seq<(K, V)>

  function Keys<K, V>(d: Dict<K, V>): (ks: seq<K>)
    ensures |ks| == |d|
    ensures forall i :: 0 <= i < |d| ==> ks[i] == d[i].0
  {
    if d == [] then [] else [d[0].0] + Keys(d[1..])
  }

  lemma KeysSnoc<K, V>(d: Dict<K, V>, e: (K, V))
    ensures Keys(d + [e]) == Keys(d) + [e.0]
  {
    assert (d + [e])[..|d|] == d;
    var r := Keys(d + [e]);
    assert r[..|d|] == Keys(d);
  }

  predicate DistinctKeys<K(==,!new), V>(d: Dict<K, V>) {
    forall i, j :: 0 <= i < j < |d| ==> d[i].0 != d[j].0
  }

  /** `d.get(k)` */
  function Get<K(==,!new), V>(d: Dict<K, V>, k: K): (r: Option<V>)
    ensures r.None? <==> k !in Keys(d)
    ensures r.Some? ==> (k, r.value) in d
  {
    if d == [] then None
    else if d[0].0 == k then Some(d[0].1)
    else Get(d[1..], k)
  }

  /** `d[k] = v` */
  function Put<K(==,!new), V>(d: Dict<K, V>, k: K, v: V): (r: Dict<K, V>)
    ensures Keys(r) == if k in Keys(d) then Keys(d) else Keys(d) + [k]
    ensures Get(r, k) == Some(v)
  {
    if d == [] then [(k, v)]
    else if d[0].0 == k then [(k, v)] + d[1..]
    else [d[0]] + Put(d[1..], k, v)
  }

  /** Assignment leaves every other key's value alone. */
  lemma {:induction false} PutOther<K(!new), V>(d: Dict<K, V>, k: K, v: V, k': K)
    requires k' != k
    ensures Get(Put(d, k, v), k') == Get(d, k')
  {
    if d != [] && d[0].0 != k {
      PutOther(d[1..], k, v, k');
    }
  }

  /** Assignment keeps every key at its position. */
  lemma {:induction false} PutKeysAt<K(!new), V>(d: Dict<K, V>, k: K, v: V)
    ensures |d| <= |Put(d, k, v)|
    ensures forall i :: 0 <= i < |d| ==> Put(d, k, v)[i].0 == d[i].0
  {
    if d != [] && d[0].0 != k {
      var t := d[1..];
      PutKeysAt(t, k, v);
      PutKeysCons(d, Put(t, k, v), k);
    }
  }

  /** The inductive step of `PutKeysAt`, stated over the assignment into the tail. */
  lemma PutKeysCons<K(!new), V>(d: Dict<K, V>, pt: Dict<K, V>, k: K)
    requires d != [] && |d| - 1 <= |pt|
    requires forall i :: 0 <= i < |d| - 1 ==> pt[i].0 == d[1..][i].0
    ensures forall i :: 0 <= i < |d| ==> ([d[0]] + pt)[i].0 == d[i].0
  {
    var r := [d[0]] + pt;
    forall i | 0 < i < |d| ensures r[i].0 == d[i].0 {
      assert r[i] == pt[i - 1] && d[i] == d[1..][i - 1];
    }
  }

  /** Assignment keeps the keys distinct. */
  lemma PutDistinct<K(!new), V>(d: Dict<K, V>, k: K, v: V)
    requires DistinctKeys(d)
    ensures DistinctKeys(Put(d, k, v))
  {
    var r := Put(d, k, v);
    PutKeysAt(d, k, v);
    forall i, j | 0 <= i < j < |r| ensures r[i].0 != r[j].0 {
      if j < |d| {
        assert r[i].0 == d[i].0 && r[j].0 == d[j].0;
      } else {
        assert Keys(r)[j] == r[j].0 && Keys(r)[i] == r[i].0;
        assert Keys(d)[i] == d[i].0;
      }
    }
  }

  /** `d.update(e)` */
  function Update<K(==,!new), V>(d: Dict<K, V>, e: Dict<K, V>): Dict<K, V>
    decreases |e|
  {
    if e == [] then d else Update(Put(d, e[0].0, e[0].1), e[1..])
  }

  /** After `d.update(e)` every key of `e` maps to its value in `e` (the last one for a
      repeated key), every other key keeps its value, and no entry is lost or duplicated. */
  lemma {:induction false} UpdateGet<K(!new), V>(d: Dict<K, V>, e: Dict<K, V>, k: K)
    ensures Get(Update(d, e), k) == if k in Keys(e) then Some(LastValue(e, k)) else Get(d, k)
    ensures DistinctKeys(d) ==> DistinctKeys(Update(d, e))
    decreases |e|
  {
    if e != [] {
      UpdateGet(Put(d, e[0].0, e[0].1), e[1..], k);
      if k != e[0].0 {
        PutOther(d, e[0].0, e[0].1, k);
      }
      if DistinctKeys(d) {
        PutDistinct(d, e[0].0, e[0].1);
      }
      assert Keys(e) == [e[0].0] + Keys(e[1..]);
    }
  }

  /** The value the last pair with key `k` assigns. */
  function LastValue<K(==,!new), V>(e: Dict<K, V>, k: K): V
    requires k in Keys(e)
    decreases |e|
  {
    assert Keys(e) == [e[0].0] + Keys(e[1..]);
    if k in Keys(e[1..]) then LastValue(e[1..], k) else e[0].1
  }

  /** Updating never shrinks the key list: the old keys stay, in their order, as a prefix. */
  lemma {:induction false} UpdateKeys<K(!new), V>(d: Dict<K, V>, e: Dict<K, V>)
    ensures Keys(d) <= Keys(Update(d, e))
    ensures forall k :: k in Keys(Update(d, e)) <==> k in Keys(d) || k in Keys(e)
    decreases |e|
  {
    if e != [] {
      var d' := Put(d, e[0].0, e[0].1);
      UpdateKeys(d', e[1..]);
      assert Keys(e) == [e[0].0] + Keys(e[1..]);
    }
  }

  /** Assigning a key twice keeps only the second value, at the first position. */
  lemma {:induction false} PutPut<K(!new), V>(d: Dict<K, V>, k: K, v1: V, v2: V)
    ensures Put(Put(d, k, v1), k, v2) == Put(d, k, v2)
  {
    if d != [] && d[0].0 != k {
      PutPut(d[1..], k, v1, v2);
    }
  }

  /** `del d[k]` */
  function Delete<K(==,!new), V>(d: Dict<K, V>, k: K): (r: Dict<K, V>)
    ensures Get(r, k).None?
    ensures |r| <= |d|
  {
    if d == [] then []
    else if d[0].0 == k then Delete(d[1..], k)
    else [d[0]] + Delete(d[1..], k)
  }

  /** Deleting a key leaves every other key's value and position order alone. */
  lemma {:induction false} DeleteOther<K(!new), V>(d: Dict<K, V>, k: K, k': K)
    requires k' != k
    ensures Get(Delete(d, k), k') == Get(d, k')
  {
    if d != [] {
      DeleteOther(d[1..], k, k');
    }
  }

  /** Deleting a key forgets any value just assigned to it. */
  lemma {:induction false} DeletePut<K(!new), V>(d: Dict<K, V>, k: K, v: V)
    ensures Delete(Put(d, k, v), k) == Delete(d, k)
  {
    if d != [] && d[0].0 != k {
      DeletePut(d[1..], k, v);
    }
  }

  /** Deleting a key keeps the keys distinct and removes only that key. */
  lemma {:induction false} DeleteKeys<K(!new), V>(d: Dict<K, V>, k: K)
    ensures forall k' :: k' in Keys(Delete(d, k)) <==> k' in Keys(d) && k' != k
  {
    if d != [] {
      DeleteKeys(d[1..], k);
      assert Keys(d) == [d[0].0] + Keys(d[1..]);
      if d[0].0 != k {
        assert Keys(Delete(d, k)) == [d[0].0] + Keys(Delete(d[1..], k));
      }
    }
  }
}
