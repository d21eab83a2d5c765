/** Python's insertion-ordered `dict`, written as the sequence of its
    entries: a key keeps the position of its first insertion, and storing
    under a key that is already present replaces that entry's value. */
module Dict {
  import opened Jobs

  /** The keys of `m`, as a set. */
  function KeySet<K, V>(m: seq<(K, V)>): set<K> {
    set i | 0 <= i < |m| :: m[i].0
  }

  /** No key occurs in two entries. */
  predicate DistinctKeys<K(==), V>(m: seq<(K, V)>) {
    forall i, j :: 0 <= i < j < |m| ==> m[i].0 != m[j].0
  }

  /** The keys of an entry followed by more entries. */
  lemma KeySetCons<K, V>(e: (K, V), m: seq<(K, V)>)
    ensures KeySet([e] + m) == {e.0} + KeySet(m)
  {
    var r := [e] + m;
    assert r[0].0 == e.0;
    forall x | x in KeySet(r)
      ensures x in {e.0} + KeySet(m)
    {
      var i :| 0 <= i < |r| && r[i].0 == x;
      if i > 0 {
        assert m[i - 1].0 == x;
      }
    }
    forall x | x in KeySet(m)
      ensures x in KeySet(r)
    {
      var i :| 0 <= i < |m| && m[i].0 == x;
      assert r[i + 1].0 == x;
    }
  }

  /** `d[k] = v`. */
  function Put<K(==), V>(m: seq<(K, V)>, k: K, v: V): seq<(K, V)> {
    if |m| == 0 then [(k, v)]
    else if m[0].0 == k then [(k, v)] + m[1..]
    else [m[0]] + Put(m[1..], k, v)
  }

  /** Storing adds `k` to the keys, and a new key goes at the end. */
  lemma {:induction false} PutKeys<K, V>(m: seq<(K, V)>, k: K, v: V)
    ensures KeySet(Put(m, k, v)) == KeySet(m) + {k}
    ensures k !in KeySet(m) ==> Put(m, k, v) == m + [(k, v)]
  {
    if |m| == 0 {
      assert Put(m, k, v)[0].0 == k;
    } else {
      var tail := m[1..];
      KeySetCons(m[0], tail);
      assert m == [m[0]] + tail;
      if m[0].0 == k {
        KeySetCons((k, v), tail);
      } else {
        PutKeys(tail, k, v);
        KeySetCons(m[0], Put(tail, k, v));
      }
    }
  }

  /** The stored entry is present, and entries under other keys are
      neither lost nor invented. */
  lemma {:induction false} PutEntries<K, V>(m: seq<(K, V)>, k: K, v: V)
    ensures (k, v) in Put(m, k, v)
    ensures forall e :: e in Put(m, k, v) && e.0 != k ==> e in m
    ensures forall e :: e in m && e.0 != k ==> e in Put(m, k, v)
  {
    if |m| > 0 && m[0].0 != k {
      PutEntries(m[1..], k, v);
      assert m == [m[0]] + m[1..];
    }
  }

  /** A dictionary never holds a key twice. */
  lemma {:induction false} PutDistinct<K, V>(m: seq<(K, V)>, k: K, v: V)
    requires DistinctKeys(m)
    ensures DistinctKeys(Put(m, k, v))
  {
    if |m| > 0 {
      var tail := m[1..];
      var r := Put(m, k, v);
      if m[0].0 == k {
        forall i, j | 0 <= i < j < |r|
          ensures r[i].0 != r[j].0
        {
          assert r[j] == m[j];
          if i > 0 {
            assert r[i] == m[i];
          }
        }
      } else {
        assert DistinctKeys(tail) by {
          forall i, j | 0 <= i < j < |tail|
            ensures tail[i].0 != tail[j].0
          {
            assert tail[i] == m[i + 1] && tail[j] == m[j + 1];
          }
        }
        PutDistinct(tail, k, v);
        PutKeys(tail, k, v);
        var rest := Put(tail, k, v);
        assert m[0].0 !in KeySet(rest) by {
          forall i | 0 <= i < |tail|
            ensures tail[i].0 != m[0].0
          {
            assert tail[i] == m[i + 1];
          }
        }
        forall i, j | 0 <= i < j < |r|
          ensures r[i].0 != r[j].0
        {
          assert r[j] == rest[j - 1];
          if i > 0 {
            assert r[i] == rest[i - 1];
          }
        }
      }
    }
  }

  /** Without repeated keys, two entries under the same key are the same
      entry. */
  lemma SameKeySameEntry<K, V>(m: seq<(K, V)>, a: (K, V), b: (K, V))
    requires DistinctKeys(m)
    requires a in m && b in m && a.0 == b.0
    ensures a == b
  {
    var i :| 0 <= i < |m| && m[i] == a;
    var j :| 0 <= j < |m| && m[j] == b;
    assert i == j;
  }

  /** Without repeated keys, a dictionary has as many entries as keys. */
  lemma {:induction false} DistinctKeysCount<K, V>(m: seq<(K, V)>)
    requires DistinctKeys(m)
    ensures |KeySet(m)| == |m|
  {
    if |m| > 0 {
      var tail := m[1..];
      assert DistinctKeys(tail) by {
        forall i, j | 0 <= i < j < |tail|
          ensures tail[i].0 != tail[j].0
        {
          assert tail[i] == m[i + 1] && tail[j] == m[j + 1];
        }
      }
      DistinctKeysCount(tail);
      assert KeySet(m) == {m[0].0} + KeySet(tail) by {
        forall x | x in KeySet(m)
          ensures x in {m[0].0} + KeySet(tail)
        {
          var i :| 0 <= i < |m| && m[i].0 == x;
          if i > 0 {
            assert tail[i - 1].0 == x;
          }
        }
        forall x | x in KeySet(tail)
          ensures x in KeySet(m)
        {
          var i :| 0 <= i < |tail| && tail[i].0 == x;
          assert m[i + 1].0 == x;
        }
      }
      assert m[0].0 !in KeySet(tail) by {
        forall i | 0 <= i < |tail|
          ensures tail[i].0 != m[0].0
        {
          assert tail[i] == m[i + 1];
        }
      }
    }
  }

  /** `d.get(k)`: the value stored under `k`, if any. */
  function Get<K(==), V>(m: seq<(K, V)>, k: K): Option<V> {
    if |m| == 0 then None
    else if m[0].0 == k then Some(m[0].1)
    else Get(m[1..], k)
  }

  /** A key is found exactly when it is one of the keys, and what is found
      is an entry of the dictionary. */
  lemma {:induction false} GetSpec<K, V>(m: seq<(K, V)>, k: K)
    ensures Get(m, k).Some? <==> k in KeySet(m)
    ensures Get(m, k).Some? ==> (k, Get(m, k).value) in m
  {
    if |m| > 0 {
      GetSpec(m[1..], k);
      KeySetCons(m[0], m[1..]);
      assert m == [m[0]] + m[1..];
    }
  }

  /** In a dictionary without repeated keys, the value found under a key is
      the one its entry holds. */
  lemma GetEntry<K, V>(m: seq<(K, V)>, k: K, v: V)
    requires DistinctKeys(m)
    requires (k, v) in m
    ensures Get(m, k) == Some(v)
  {
    GetSpec(m, k);
    var i :| 0 <= i < |m| && m[i] == (k, v);
    assert k in KeySet(m);
    var w := Get(m, k).value;
    var j :| 0 <= j < |m| && m[j] == (k, w);
    assert i == j;
  }

  /** Reading back after `d[k] = v`: `v` under `k`, the old value under any
      other key. */
  lemma {:induction false} GetPut<K, V>(m: seq<(K, V)>, k: K, v: V, k': K)
    ensures Get(Put(m, k, v), k') == if k' == k then Some(v) else Get(m, k')
  {
    if |m| > 0 && m[0].0 != k {
      GetPut(m[1..], k, v, k');
    }
  }
}
