/**
 A JavaScript `Map`, modelled as the sequence of its entries in insertion order.
 `Set` of a key already present updates its value in place; `Set` of a new key
 appends; `Delete` removes the key and keeps every other entry where it was.
 */
module InsertionMap {
  import opened Wrappers

  datatype Entry<K, V> = Entry(key: K, value: V)

  /** `m.has(k)` */
  predicate Has<K(==,!new), V>(m: seq<Entry<K, V>>, k: K) {
    m != [] && (m[0].key == k || Has(m[1..], k))
  }

  /** No key occurs twice: the shape every map built by `Set` and `Delete` has. */
  ghost predicate Keyed<K(!new), V>(m: seq<Entry<K, V>>) {
    m == [] || (!Has(m[1..], m[0].key) && Keyed(m[1..]))
  }

  /** `Array.from(m.keys())` */
  function Keys<K(!new), V>(m: seq<Entry<K, V>>): (r: seq<K>)
    ensures |r| == |m|
    ensures forall i :: 0 <= i < |m| ==> r[i] == m[i].key
  {
    if m == [] then [] else [m[0].key] + Keys(m[1..])
  }

  /** `Array.from(m.values())` */
  function Values<K(!new), V>(m: seq<Entry<K, V>>): (r: seq<V>)
    ensures |r| == |m|
    ensures forall i :: 0 <= i < |m| ==> r[i] == m[i].value
  {
    if m == [] then [] else [m[0].value] + Values(m[1..])
  }

  /** `m.get(k)`, with `undefined` as `None`. */
  function Get<K(==,!new), V>(m: seq<Entry<K, V>>, k: K): (r: Option<V>)
    ensures r.Some? <==> Has(m, k)
  {
    if m == [] then None
    else if m[0].key == k then Some(m[0].value)
    else Get(m[1..], k)
  }

  /** The key at position `i` is present, and in a keyed map it maps to the value stored there. */
  lemma {:induction false} GetAt<K(!new), V>(m: seq<Entry<K, V>>, i: nat)
    requires i < |m|
    ensures Has(m, m[i].key)
    ensures Keyed(m) ==> Get(m, m[i].key) == Some(m[i].value)
    decreases i
  {
    if i > 0 {
      assert m[1..][i - 1] == m[i];
      GetAt(m[1..], i - 1);
    }
  }

  /** A present key sits at some position. */
  lemma {:induction false} HasAt<K(!new), V>(m: seq<Entry<K, V>>, k: K) returns (i: nat)
    requires Has(m, k)
    ensures i < |m| && m[i].key == k
    decreases |m|
  {
    if m[0].key == k {
      i := 0;
    } else {
      var j := HasAt(m[1..], k);
      i := j + 1;
    }
  }

  /** `m.set(k, v)` */
  function Set<K(==,!new), V>(m: seq<Entry<K, V>>, k: K, v: V): (r: seq<Entry<K, V>>)
    ensures Get(r, k) == Some(v)
    ensures forall k' :: k' != k ==> Get(r, k') == Get(m, k')
    ensures Has(m, k) ==> Keys(r) == Keys(m)
    ensures !Has(m, k) ==> r == m + [Entry(k, v)]
    ensures Keyed(m) ==> Keyed(r)
  {
    if m == [] then [Entry(k, v)]
    else if m[0].key == k then [Entry(k, v)] + m[1..]
    else
      var r := [m[0]] + Set(m[1..], k, v);
      assert r[1..] == Set(m[1..], k, v);
      assert Get(r[1..], m[0].key) == Get(m[1..], m[0].key);
      r
  }

  /** `m.delete(k)` */
  function Delete<K(==,!new), V>(m: seq<Entry<K, V>>, k: K): (r: seq<Entry<K, V>>)
    ensures !Has(r, k)
    ensures forall k' :: k' != k ==> Get(r, k') == Get(m, k')
    ensures !Has(m, k) ==> r == m
    ensures |r| <= |m|
    ensures Keyed(m) ==> Keyed(r)
  {
    if m == [] then []
    else if m[0].key == k then Delete(m[1..], k)
    else
      var r := [m[0]] + Delete(m[1..], k);
      assert r[1..] == Delete(m[1..], k);
      assert Get(r[1..], m[0].key) == Get(m[1..], m[0].key);
      r
  }

  /**
   Deleting a key of a keyed map removes exactly its one entry: the entries
   before it and after it stay, in their order.
   */
  lemma {:induction false} DeleteExactlyOne<K(!new), V>(m: seq<Entry<K, V>>, i: nat)
    requires Keyed(m)
    requires i < |m|
    ensures Delete(m, m[i].key) == m[..i] + m[i + 1..]
    decreases i
  {
    if i > 0 {
      assert m[1..][i - 1] == m[i];
      GetAt(m[1..], i - 1);
      DeleteExactlyOne(m[1..], i - 1);
      assert m[1..][..i - 1] + m[1..][i..] == m[1..i] + m[i + 1..];
      assert m[..i] + m[i + 1..] == [m[0]] + (m[1..i] + m[i + 1..]);
    }
  }

  /** Deleting a key present in a keyed map shrinks it by exactly one entry. */
  lemma DeleteSize<K(!new), V>(m: seq<Entry<K, V>>, k: K)
    requires Keyed(m)
    requires Has(m, k)
    ensures |Delete(m, k)| == |m| - 1
  {
    var i := HasAt(m, k);
    DeleteExactlyOne(m, i);
  }

  /** Deleting a key that was only just appended gives back the map before the append. */
  lemma {:induction false} DeleteAppended<K(!new), V>(m: seq<Entry<K, V>>, k: K, v: V)
    requires !Has(m, k)
    ensures Delete(m + [Entry(k, v)], k) == m
    decreases |m|
  {
    if m != [] {
      assert (m + [Entry(k, v)])[1..] == m[1..] + [Entry(k, v)];
      DeleteAppended(m[1..], k, v);
    }
  }

  /** No later pair of `entries` repeats the key of pair `i`. */
  predicate LastOccurrence<K(==), V>(entries: seq<(K, V)>, i: nat)
    requires i < |entries|
  {
    forall j :: i < j < |entries| ==> entries[j].0 != entries[i].0
  }

  /**
   `new Map(entries)`: every listed key is present, holding the value of its
   last occurrence, and no other key is.
   */
  function FromEntries<K(==,!new), V>(entries: seq<(K, V)>): (r: seq<Entry<K, V>>)
    ensures Keyed(r)
    ensures forall i :: 0 <= i < |entries| ==> Has(r, entries[i].0)
    ensures forall i :: 0 <= i < |entries| && LastOccurrence(entries, i) ==> Get(r, entries[i].0) == Some(entries[i].1)
    ensures forall k :: Get(r, k).Some? ==> exists i :: 0 <= i < |entries| && entries[i].0 == k
    decreases |entries|
  {
    if entries == [] then []
    else
      var init := entries[..|entries| - 1];
      var last := entries[|entries| - 1];
      var m := FromEntries(init);
      var r := Set(m, last.0, last.1);
      assert forall k :: Get(r, k).Some? ==> exists i :: 0 <= i < |entries| && entries[i].0 == k by {
        forall k | Get(r, k).Some? ensures exists i :: 0 <= i < |entries| && entries[i].0 == k {
          if k != last.0 {
            var i :| 0 <= i < |init| && init[i].0 == k;
            assert entries[i].0 == k;
          }
        }
      }
      assert forall i :: 0 <= i < |entries| ==> Has(r, entries[i].0) by {
        forall i | 0 <= i < |entries| ensures Has(r, entries[i].0) {
          if i < |init| {
            assert init[i] == entries[i];
            assert Get(m, entries[i].0).Some?;
          }
        }
      }
      assert forall i :: 0 <= i < |entries| && LastOccurrence(entries, i) ==> Get(r, entries[i].0) == Some(entries[i].1) by {
        forall i | 0 <= i < |entries| && LastOccurrence(entries, i) ensures Get(r, entries[i].0) == Some(entries[i].1) {
          if i < |init| {
            assert init[i] == entries[i];
            assert entries[|entries| - 1].0 != entries[i].0;
            assert LastOccurrence(init, i) by {
              forall j | i < j < |init| ensures init[j].0 != init[i].0 {
                assert init[j] == entries[j];
              }
            }
          }
        }
      }
      r
  }
}
