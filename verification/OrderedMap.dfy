/** Maps that remember insertion order, oldest entry first, as the ledgers use them for eviction. */
module OrderedMap {

  import opened Common

  datatype Entry<K, V> = Entry(key: K, value: V)

  predicate DistinctKeys<K(==), V>(m: seq<Entry<K, V>>) {
    forall i, j :: 0 <= i < j < |m| ==> m[i].key != m[j].key
  }

  predicate HasKey<K(==), V>(m: seq<Entry<K, V>>, k: K) { exists i :: 0 <= i < |m| && m[i].key == k }

  function Lookup<K(==), V>(m: seq<Entry<K, V>>, k: K): Option<V> {
    if m == [] then None
    else if m[|m| - 1].key == k then Some(m[|m| - 1].value)
    else Lookup(m[..|m| - 1], k)
  }

  function Delete<K(==), V>(m: seq<Entry<K, V>>, k: K): seq<Entry<K, V>> {
    if m == [] then []
    else if m[|m| - 1].key == k then Delete(m[..|m| - 1], k)
    else Delete(m[..|m| - 1], k) + [m[|m| - 1]]
  }

  /** Deletes the key and sets it again, which makes it the newest. */
  function Refresh<K(==), V>(m: seq<Entry<K, V>>, k: K, v: V): seq<Entry<K, V>> { Delete(m, k) + [Entry(k, v)] }

  /** Drops the oldest entries until at most `n` remain. */
  function Newest<T>(m: seq<T>, n: nat): (r: seq<T>)
    ensures |r| == if |m| <= n then |m| else n
  {
    if |m| <= n then m else m[|m| - n..]
  }

  method DropOldest<T>(m: seq<T>, n: nat) returns (r: seq<T>)
    ensures r == Newest(m, n)
  {
    r := m;
    while |r| > n
      invariant |r| <= |m| && r == m[|m| - |r|..]
      invariant |r| < n ==> r == m
    {
      r := r[1..];
    }
  }

  lemma {:induction false} LookupIs<K, V>(m: seq<Entry<K, V>>, k: K)
    ensures Lookup(m, k).None? <==> !HasKey(m, k)
    ensures DistinctKeys(m) ==> forall i :: 0 <= i < |m| && m[i].key == k ==> Lookup(m, k) == Some(m[i].value)
    ensures Lookup(m, k).Some? ==> Entry(k, Lookup(m, k).value) in m
  {
    if m != [] {
      var n := |m| - 1;
      LookupIs(m[..n], k);
      if m[n].key == k { assert HasKey(m, k); }
      else {
        if HasKey(m, k) { var i :| 0 <= i < |m| && m[i].key == k; assert m[..n][i].key == k; }
        if HasKey(m[..n], k) { var i :| 0 <= i < n && m[..n][i].key == k; assert m[i].key == k; }
        forall i | DistinctKeys(m) && 0 <= i < |m| && m[i].key == k ensures Lookup(m, k) == Some(m[i].value) {
          assert m[..n][i].key == k;
        }
      }
    }
  }

  lemma {:induction false} DeleteIs<K, V>(m: seq<Entry<K, V>>, k: K)
    ensures forall i :: 0 <= i < |Delete(m, k)| ==> Delete(m, k)[i] in m && Delete(m, k)[i].key != k
    ensures forall i :: 0 <= i < |m| && m[i].key != k ==> m[i] in Delete(m, k)
    ensures DistinctKeys(m) ==> DistinctKeys(Delete(m, k))
    ensures |Delete(m, k)| <= |m|
    ensures forall j :: Lookup(Delete(m, k), j) == if j == k then None else Lookup(m, j)
  {
    if m != [] {
      var n := |m| - 1;
      DeleteIs(m[..n], k);
      var d := Delete(m[..n], k);
      assert m == m[..n] + [m[n]];
      if m[n].key != k {
        assert (d + [m[n]])[..|d|] == d;
        forall i | DistinctKeys(m) && 0 <= i < |d| ensures d[i].key != m[n].key {
          assert d[i] in m[..n];
        }
      }
    }
  }

  lemma {:induction false} RefreshIs<K, V>(m: seq<Entry<K, V>>, k: K, v: V)
    ensures DistinctKeys(m) ==> DistinctKeys(Refresh(m, k, v))
    ensures |Refresh(m, k, v)| <= |m| + 1
    ensures forall i :: 0 <= i < |Refresh(m, k, v)| - 1 ==> Refresh(m, k, v)[i] in m && Refresh(m, k, v)[i].key != k
    ensures forall j :: Lookup(Refresh(m, k, v), j) == if j == k then Some(v) else Lookup(m, j)
  {
    DeleteIs(m, k);
    var d := Delete(m, k);
    assert (d + [Entry(k, v)])[..|d|] == d;
  }

  function KeySet<K, V(==)>(m: seq<Entry<K, V>>): set<K> { set i | 0 <= i < |m| :: m[i].key }

  lemma {:induction false} KeySetHas<K, V>(m: seq<Entry<K, V>>, k: K)
    ensures k in KeySet(m) <==> HasKey(m, k)
  {
  }

  lemma {:induction false} DistinctSize<K, V>(m: seq<Entry<K, V>>)
    requires DistinctKeys(m)
    ensures |KeySet(m)| == |m|
  {
    if m != [] {
      var n := |m| - 1;
      DistinctSize(m[..n]);
      assert forall i :: 0 <= i < n ==> m[..n][i] == m[i];
      assert KeySet(m) == KeySet(m[..n]) + {m[n].key};
    }
  }
}
