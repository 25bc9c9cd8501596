/**
 * Python dictionaries whose iteration order matters: the entries in insertion
 * order. Assigning to a present key keeps its position; a new key goes last.
 */
module Dicts {
  import opened Wrappers

  type Dict<K, V> = seq<(K, V)>

  /** No key is listed twice, which every dictionary built with `Put` keeps. */
  ghost predicate DistinctKeys<K, V>(d: Dict<K, V>)
  {
    forall i, j :: 0 <= i < j < |d| ==> d[i].0 != d[j].0
  }

  /** `d.keys()` as a set. */
  function Keys<K, V>(d: Dict<K, V>): set<K>
  {
    if |d| == 0 then {} else {d[0].0} + Keys(d[1..])
  }

  /** A key is present exactly when some entry carries it. */
  lemma {:induction false} KeysAt<K, V>(d: Dict<K, V>, k: K)
    ensures k in Keys(d) <==> exists i :: 0 <= i < |d| && d[i].0 == k
  {
    if |d| > 0 {
      KeysAt(d[1..], k);
      if exists i :: 0 <= i < |d| && d[i].0 == k {
        var i :| 0 <= i < |d| && d[i].0 == k;
        if i > 0 {
          assert d[1..][i - 1].0 == k;
        }
      }
      if exists i :: 0 <= i < |d[1..]| && d[1..][i].0 == k {
        var i :| 0 <= i < |d[1..]| && d[1..][i].0 == k;
        assert d[i + 1].0 == k;
      }
    }
  }

  /** `d.get(k)`: the value of the first entry with key `k`. */
  function Get<K(==), V>(d: Dict<K, V>, k: K): (r: Option<V>)
    ensures r.Some? <==> k in Keys(d)
  {
    if |d| == 0 then None
    else if d[0].0 == k then Some(d[0].1)
    else
      Get(d[1..], k)
  }

  /** With distinct keys, the entry at position `i` is what its key looks up. */
  lemma {:induction false} GetAt<K, V>(d: Dict<K, V>, i: nat)
    requires DistinctKeys(d) && i < |d|
    ensures Get(d, d[i].0) == Some(d[i].1)
  {
    if i > 0 {
      GetAt(d[1..], i - 1);
    }
  }

  /** `d[k] = v`. */
  function Put<K(==,!new), V>(d: Dict<K, V>, k: K, v: V): (r: Dict<K, V>)
    ensures Keys(r) == Keys(d) + {k}
    ensures Get(r, k) == Some(v)
    ensures forall j :: j != k ==> Get(r, j) == Get(d, j)
    ensures DistinctKeys(d) ==> DistinctKeys(r)
    ensures k !in Keys(d) ==> r == d + [(k, v)]
  {
    if |d| == 0 then [(k, v)]
    else if d[0].0 == k then
      var r := [(k, v)] + d[1..];
      assert r[1..] == d[1..];
      assert d == [d[0]] + d[1..];
      DistinctCons(d[0], d[1..]);
      DistinctCons((k, v), d[1..]);
      r
    else
      var tail := Put(d[1..], k, v);
      var r := [d[0]] + tail;
      KeysCons(d[0], d[1..]);
      KeysCons(d[0], tail);
      assert d == [d[0]] + d[1..];
      DistinctCons(d[0], d[1..]);
      DistinctCons(d[0], tail);
      assert r[1..] == tail;
      r
  }

  /** The keys of a dictionary with one more entry in front. */
  lemma {:induction false} KeysCons<K, V>(e: (K, V), d: Dict<K, V>)
    ensures Keys([e] + d) == {e.0} + Keys(d)
  {
    assert ([e] + d)[1..] == d;
  }

  /** A dictionary with one more entry in front has distinct keys exactly when the
      new key is not among the others and they are distinct. */
  lemma {:induction false} DistinctCons<K, V>(e: (K, V), d: Dict<K, V>)
    ensures DistinctKeys([e] + d) <==> e.0 !in Keys(d) && DistinctKeys(d)
  {
    var r := [e] + d;
    KeysAt(d, e.0);
    if DistinctKeys(r) {
      forall i, j | 0 <= i < j < |d| ensures d[i].0 != d[j].0 {
        assert r[i + 1] == d[i] && r[j + 1] == d[j];
      }
      forall i | 0 <= i < |d| ensures d[i].0 != e.0 {
        assert r[0] == e && r[i + 1] == d[i];
      }
    }
    if e.0 !in Keys(d) && DistinctKeys(d) {
      forall i, j | 0 <= i < j < |r| ensures r[i].0 != r[j].0 {
        assert r[j] == d[j - 1];
        if i > 0 {
          assert r[i] == d[i - 1];
        } else {
          assert r[i] == e;
          assert d[j - 1].0 != e.0;
        }
      }
    }
  }

  /** `d.pop(k, None)`: the dictionary without the entry for `k`. */
  function Remove<K(==,!new), V>(d: Dict<K, V>, k: K): (r: Dict<K, V>)
    requires DistinctKeys(d)
    ensures Keys(r) == Keys(d) - {k}
    ensures Get(r, k) == None
    ensures forall j :: j != k ==> Get(r, j) == Get(d, j)
    ensures DistinctKeys(r)
  {
    if |d| == 0 then []
    else
      KeysCons(d[0], d[1..]);
      assert d == [d[0]] + d[1..];
      DistinctCons(d[0], d[1..]);
      if d[0].0 == k then
        d[1..]
      else
        var tail := Remove(d[1..], k);
        var r := [d[0]] + tail;
        KeysCons(d[0], tail);
        DistinctCons(d[0], tail);
        assert r[1..] == tail;
        r
  }

  /** The dictionary's content, forgetting the order. */
  function ToMap<K(==,!new), V>(d: Dict<K, V>): (m: map<K, V>)
    ensures m.Keys == Keys(d)
    ensures forall k :: k in m ==> Get(d, k) == Some(m[k])
  {
    if |d| == 0 then map[]
    else
      KeysCons(d[0], d[1..]);
      assert d == [d[0]] + d[1..];
      ToMap(d[1..])[d[0].0 := d[0].1]
  }

  /** Looking a key up in a dictionary with one more entry at the end. */
  lemma {:induction false} GetSnoc<K, V>(d: Dict<K, V>, e: (K, V), k: K)
    ensures Get(d + [e], k) == if k in Keys(d) then Get(d, k) else if e.0 == k then Some(e.1) else None
    decreases |d|
  {
    if |d| > 0 {
      assert (d + [e])[1..] == d[1..] + [e];
      GetSnoc(d[1..], e, k);
    }
  }
}
