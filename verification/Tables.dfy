/** threadsafe_unordered_map: a map behind a mutex, each method one critical section. Iteration
    visits every key once, in no particular order. */
module Tables {
  import opened Basics

  /** No key is listed twice. */
  predicate Once<K(==)>(ks: seq<K>)
  {
    forall i, j :: 0 <= i < j < |ks| ==> ks[i] != ks[j]
  }

  lemma {:induction false} OnceCounts<K>(ks: seq<K>, k: K)
    requires Once(ks)
    ensures multiset(ks)[k] == if k in ks then 1 else 0
  {
    if ks != [] {
      var n := |ks| - 1;
      OnceCounts(ks[..n], k);
      assert ks == ks[..n] + [ks[n]];
      if ks[n] == k {
        assert k !in ks[..n];
      }
    }
  }

  /** Listing a set once each loses and repeats nothing. */
  lemma OnceIsSet<K>(ks: seq<K>, all: set<K>)
    requires Once(ks) && all == set k | k in ks
    ensures multiset(ks) == multiset(all)
  {
    forall k ensures multiset(ks)[k] == multiset(all)[k] {
      OnceCounts(ks, k);
    }
  }

  class ThreadsafeMap<K(==), V> {
    var m: map<K, V>

    constructor ()
      ensures m == map[]
    {
      m := map[];
    }

    /** Does not overwrite an existing key. */
    method Emplace(key: K, value: V)
      modifies this
      ensures m == if key in old(m) then old(m) else old(m)[key := value]
    {
      if key !in m {
        m := m[key := value];
      }
    }

    method Replace(key: K, value: V) returns (isUpdate: bool, outValue: Option<V>)
      modifies this
      ensures isUpdate <==> key in old(m)
      ensures outValue == if key in old(m) then Some(old(m)[key]) else None
      ensures m == old(m)[key := value]
    {
      isUpdate := key in m;
      outValue := if key in m then Some(m[key]) else None;
      m := m[key := value];
    }

    method Erase(key: K)
      modifies this
      ensures m == old(m) - {key}
    {
      m := m - {key};
    }

    method Find(key: K) returns (r: Option<V>)
      ensures r == if key in m then Some(m[key]) else None
    {
      if key in m { r := Some(m[key]); } else { r := None; }
    }

    method Clear()
      modifies this
      ensures m == map[]
    {
      m := map[];
    }

    /** Visits every key once. */
    method Keys() returns (ks: seq<K>)
      ensures Once(ks) && forall k :: k in ks <==> k in m
    {
      ks := [];
      var todo := m.Keys;
      while todo != {}
        invariant Once(ks) && todo <= m.Keys
        invariant forall k :: k in ks <==> k in m && k !in todo
      {
        var k :| k in todo;
        ks := ks + [k];
        todo := todo - {k};
      }
    }

    /** Erases while iterating: exactly the entries for which `hit` holds go, each of them
        visited once; the others stay. */
    method ForEachErase(hit: (K, V) -> bool) returns (hits: seq<K>)
      modifies this
      ensures Once(hits) && forall k :: k in hits <==> k in old(m) && hit(k, old(m)[k])
      ensures m == map k | k in old(m) && !hit(k, old(m)[k]) :: old(m)[k]
    {
      hits := [];
      var todo := m.Keys;
      while todo != {}
        invariant todo <= m.Keys <= old(m).Keys
        invariant forall k :: k in old(m) ==> (k in m <==> k in todo || !hit(k, old(m)[k]))
        invariant forall k :: k in m ==> m[k] == old(m)[k]
        invariant Once(hits) && forall k :: k in hits <==> k in old(m) && k !in m
      {
        var k :| k in todo;
        if hit(k, m[k]) {
          hits := hits + [k];
          m := m - {k};
        }
        todo := todo - {k};
      }
    }
  }
}
