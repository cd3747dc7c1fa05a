/** LocUnorderedSetMap of gps/utils/LocUnorderedSetMap.h: a map from keys to sets that
    stores no empty set. Its loops visit the elements of a set in any order. */
module SetMap {

  // ---------- What the operations come to ----------

  // Whether v is stored under k.
  predicate In<K, V>(m: map<K, set<V>>, k: K, v: V) {
    k in m && v in m[k]
  }

  function Vals<K, V>(m: map<K, set<V>>, k: K): set<V> {
    if k in m then m[k] else {}
  }

  function Trimmed<K, V>(m: map<K, set<V>>, keys: set<K>, rVals: set<V>): map<K, set<V>> {
    map k | k in m && (k in keys ==> m[k] - rVals != {}) :: if k in keys then m[k] - rVals else m[k]
  }

  function GoneKeys<K, V>(m: map<K, set<V>>, keys: set<K>, rVals: set<V>): set<K> {
    set k | k in keys && k in m && m[k] - rVals == {}
  }

  function GoneVals<K(!new), V(!new)>(m: map<K, set<V>>, keys: set<K>, rVals: set<V>): set<V> {
    set v | v in rVals && exists k :: k in keys && In(m, k, v)
  }

  function Extended<K, V>(m: map<K, set<V>>, keys: set<K>, newVals: set<V>): map<K, set<V>> {
    if newVals == {} then m
    else map k | k in m.Keys + keys :: if k in keys then Vals(m, k) + newVals else m[k]
  }

  function NewKeys<K, V>(m: map<K, set<V>>, keys: set<K>, newVals: set<V>): set<K> {
    if newVals == {} then {} else keys - m.Keys
  }

  // update: the new values are stored, and the common ones are called gone.
  function Updated<K, V>(m: map<K, set<V>>, key: K, newVals: set<V>): map<K, set<V>> {
    if newVals == {} then m - {key} else m[key := newVals]
  }

  // ---------- The class ----------

  // removeAndReturnInterset, had its loop not lost its iterator to the element it erases.
  method RemoveAndReturnInterset<V(==)>(s1: set<V>, s2: set<V>) returns (left1: set<V>, left2: set<V>, common: set<V>)
    ensures left1 == s1 - s2 && left2 == s2 - s1 && common == s1 * s2
  {
    left1, left2, common := s1, s2, {};
    var todo := s2;
    while todo != {}
      invariant todo <= s2
      invariant left1 == s1 - (s2 - todo) && left2 == s2 - (s1 - todo) && common == s1 * (s2 - todo)
      decreases todo
    {
      var b :| b in todo;
      todo := todo - {b};
      if b in left1 {
        common := common + {b};
        left1 := left1 - {b};
        left2 := left2 - {b};
      }
    }
  }

  method TrimSet<V(==)>(fromSet: set<V>, rVals: set<V>) returns (left: set<V>, goneVals: set<V>)
    ensures left == fromSet - rVals && goneVals == fromSet * rVals
  {
    left, goneVals := fromSet, {};
    var todo := rVals;
    while todo != {}
      invariant todo <= rVals
      invariant left == fromSet - (rVals - todo)
      invariant goneVals == fromSet * (rVals - todo)
      decreases todo
    {
      var val :| val in todo;
      todo := todo - {val};
      if val in left {
        left := left - {val};
        goneVals := goneVals + {val};
      }
    }
  }

  class LocUnorderedSetMap<K(==, !new), V(==, !new)> {
    var mMap: map<K, set<V>>

    constructor ()
      ensures mMap == map[]
    {
      mMap := map[];
    }

    method GetKeys() returns (keys: set<K>)
      ensures keys == mMap.Keys
    {
      keys := {};
      var todo := mMap.Keys;
      while todo != {}
        invariant todo <= mMap.Keys && keys == mMap.Keys - todo
        decreases todo
      {
        var k :| k in todo;
        todo := todo - {k};
        keys := keys + {k};
      }
    }

    method Remove(key: K) returns (removed: bool)
      modifies this
      ensures mMap == old(mMap) - {key} && removed == (key in old(mMap))
    {
      removed := key in mMap;
      mMap := mMap - {key};
    }

    // The entry of one key, which is dropped when nothing is left of it.
    method TrimEntry(key: K, rVals: set<V>) returns (removeEntry: bool, goneVals: set<V>)
      requires key in mMap
      modifies this
      ensures mMap == Trimmed(old(mMap), {key}, rVals)
      ensures removeEntry == (old(mMap)[key] - rVals == {}) && goneVals == old(mMap)[key] * rVals
    {
      var left;
      left, goneVals := TrimSet(mMap[key], rVals);
      removeEntry := left == {};
      mMap := if removeEntry then mMap - {key} else mMap[key := left];
    }

    method TrimOrRemove(keys: set<K>, rVals: set<V>) returns (goneKeys: set<K>, goneVals: set<V>)
      modifies this
      ensures mMap == Trimmed(old(mMap), keys, rVals)
      ensures goneKeys == GoneKeys(old(mMap), keys, rVals)
      ensures goneVals == GoneVals(old(mMap), keys, rVals)
    {
      goneKeys, goneVals := {}, {};
      var todo := keys;
      ghost var done: set<K> := {};
      assert mMap == Trimmed(mMap, {}, rVals);
      while todo != {}
        invariant todo !! done && keys == todo + done
        invariant mMap == Trimmed(old(mMap), done, rVals)
        invariant goneKeys == GoneKeys(old(mMap), done, rVals)
        invariant goneVals == GoneVals(old(mMap), done, rVals)
        decreases todo
      {
        var key :| key in todo;
        todo := todo - {key};
        GoneValsStep(old(mMap), done, key, rVals);
        assert key in mMap <==> key in old(mMap);
        if key in mMap {
          assert mMap[key] == old(mMap)[key];
          var removed, vals := TrimEntry(key, rVals);
          goneVals := goneVals + vals;
          if removed {
            goneKeys := goneKeys + {key};
          }
        }
        done := done + {key};
        assert mMap == Trimmed(old(mMap), done, rVals);
      }
    }

    static lemma GoneValsStep(m: map<K, set<V>>, done: set<K>, key: K, rVals: set<V>)
      ensures GoneVals(m, done + {key}, rVals) == GoneVals(m, done, rVals) + Vals(m, key) * rVals
    {
      forall v | v in Vals(m, key) * rVals ensures v in GoneVals(m, done + {key}, rVals) {
        assert key in done + {key} && In(m, key, v);
      }
      forall v | v in GoneVals(m, done, rVals) ensures v in GoneVals(m, done + {key}, rVals) {
        var k :| k in done && In(m, k, v);
        assert k in done + {key};
      }
    }

    method AddTo(key: K, newVals: set<V>) returns (newEntryAdded: bool)
      modifies this
      ensures mMap == Extended(old(mMap), {key}, newVals)
      ensures newEntryAdded == (newVals != {} && key !in old(mMap))
    {
      newEntryAdded := false;
      if newVals != {} {
        if key in mMap {
          mMap := mMap[key := mMap[key] + newVals];
        } else {
          mMap := mMap[key := newVals];
          newEntryAdded := true;
        }
        assert mMap.Keys == old(mMap).Keys + {key};
        assert mMap[key] == Vals(old(mMap), key) + newVals;
        assert forall k | k in old(mMap) && k != key :: mMap[k] == old(mMap)[k];
      }
    }

    // What is left of newVals is handed back, as the source does by reference.
    method Update(key: K, newVals: set<V>) returns (goneVals: set<V>, left: set<V>)
      modifies this
      ensures mMap == Updated(old(mMap), key, newVals)
      ensures goneVals == Vals(old(mMap), key) * newVals && left == newVals - Vals(old(mMap), key)
    {
      goneVals, left := {}, newVals;
      if newVals == {} {
        mMap := mMap - {key};
      } else {
        var curVals := if key in mMap then mMap[key] else {};
        mMap := mMap[key := newVals];
        var _, rest, common := RemoveAndReturnInterset(curVals, newVals);
        goneVals, left := common, rest;
      }
    }

    method Add(keys: set<K>, newVals: set<V>) returns (newKeys: set<K>)
      modifies this
      ensures mMap == Extended(old(mMap), keys, newVals)
      ensures newKeys == NewKeys(old(mMap), keys, newVals)
    {
      newKeys := {};
      var todo := keys;
      ghost var done: set<K> := {};
      assert mMap == Extended(mMap, {}, newVals);
      while todo != {}
        invariant todo !! done && keys == todo + done
        invariant mMap == Extended(old(mMap), done, newVals)
        invariant newKeys == NewKeys(old(mMap), done, newVals)
        decreases todo
      {
        var key :| key in todo;
        todo := todo - {key};
        var added := AddTo(key, newVals);
        if added {
          newKeys := newKeys + {key};
        }
        done := done + {key};
        assert mMap == Extended(old(mMap), done, newVals);
      }
    }
  }
}
