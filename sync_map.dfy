/**
  The keyed store of reminder/internal/syncmap: a Go map behind a reader-writer
  lock with Get, Set, Delete and Range, plus the Apply operation its tests use.
  Calls are modelled one at a time, so the lock itself does not appear.
*/
module SyncMap {
  import opened Wrappers

  class SyncMap<K(==), V> {
    /** The guarded Go map. */
    var m: map<K, V>

    /** syncmap.New: an empty map. */
    constructor ()
      ensures m == map[]
    {
      m := map[];
    }

    /** Get: the bound value, or not found. */
    method Get(key: K) returns (r: Option<V>)
      ensures r.Some? <==> key in m
      ensures r.Some? ==> r.value == m[key]
    {
      if key in m {
        r := Some(m[key]);
      } else {
        r := None;
      }
    }

    /** Set: binds key to value and leaves every other key as it was. */
    method Set(key: K, value: V)
      modifies this
      ensures m == old(m)[key := value]
    {
      m := m[key := value];
    }

    /** Delete: unbinds key and leaves every other key as it was. */
    method Delete(key: K)
      modifies this
      ensures m == old(m) - {key}
    {
      m := m - {key};
    }

    /** Apply: replaces the value at an existing key by f of it; an absent key is left absent. */
    method Apply(key: K, f: V -> V)
      modifies this
      ensures key in old(m) ==> m == old(m)[key := f(old(m)[key])]
      ensures key !in old(m) ==> m == old(m)
    {
      if key in m {
        m := m[key := f(m[key])];
      }
    }

    /**
      Range: calls the visitor on the bindings in an unspecified order, each key
      at most once, and stops after the first call that returns false. The
      result lists the calls made, in order. The map is only read.
    */
    method Range(f: (K, V) -> bool) returns (calls: seq<(K, V)>)
      ensures forall i :: 0 <= i < |calls| ==> calls[i].0 in m && m[calls[i].0] == calls[i].1
      ensures forall i, j :: 0 <= i < j < |calls| ==> calls[i].0 != calls[j].0
      ensures forall i :: 0 <= i < |calls| - 1 ==> f(calls[i].0, calls[i].1)
      ensures |calls| <= |m|
      ensures |calls| < |m| ==> |calls| > 0 && !f(calls[|calls| - 1].0, calls[|calls| - 1].1)
      ensures (forall i :: 0 <= i < |calls| ==> f(calls[i].0, calls[i].1)) ==>
        |calls| == |m| && forall k :: k in m ==> exists i :: 0 <= i < |calls| && calls[i].0 == k
    {
      var remaining := m.Keys;
      calls := [];
      while remaining != {}
        invariant remaining <= m.Keys
        invariant forall i :: 0 <= i < |calls| ==> calls[i].0 in m && m[calls[i].0] == calls[i].1
        invariant forall i :: 0 <= i < |calls| ==> calls[i].0 !in remaining
        invariant forall i, j :: 0 <= i < j < |calls| ==> calls[i].0 != calls[j].0
        invariant forall i :: 0 <= i < |calls| ==> f(calls[i].0, calls[i].1)
        invariant forall k :: k in m.Keys - remaining ==> exists i :: 0 <= i < |calls| && calls[i].0 == k
        invariant |calls| + |remaining| == |m.Keys|
        decreases remaining
      {
        var k :| k in remaining;
        ghost var before := calls;
        ghost var unseen := remaining;
        calls := calls + [(k, m[k])];
        assert calls[|calls| - 1] == (k, m[k]);
        if !f(k, m[k]) {
          return;
        }
        remaining := remaining - {k};
        forall k' | k' in m.Keys - remaining
          ensures exists i :: 0 <= i < |calls| && calls[i].0 == k'
        {
          if k' != k {
            assert k' in m.Keys - unseen;
            var i :| 0 <= i < |before| && before[i].0 == k';
            assert calls[i] == before[i];
          }
        }
      }
      assert forall k :: k in m ==> k in m.Keys - remaining;
    }
  }

  // Client scenarios: the behaviour the syncmap tests pin down, derived from
  // the contracts above alone.

  /** "Set and Get existing key". */
  method SetThenGet<K(==), V>(k: K, v: V) returns (r: Option<V>)
    ensures r == Some(v)
  {
    var sm := new SyncMap<K, V>();
    sm.Set(k, v);
    r := sm.Get(k);
  }

  /** "Get non-existent key". */
  method GetNeverSet<K(==), V>(k: K) returns (r: Option<V>)
    ensures r == None
  {
    var sm := new SyncMap<K, V>();
    r := sm.Get(k);
  }

  /** "Delete existing key": the key is gone and another key keeps its binding. */
  method DeleteThenGet<K(==), V>(k: K, v: V, other: K, w: V) returns (r: Option<V>, rOther: Option<V>)
    requires other != k
    ensures r == None
    ensures rOther == Some(w)
  {
    var sm := new SyncMap<K, V>();
    sm.Set(other, w);
    sm.Set(k, v);
    sm.Delete(k);
    r := sm.Get(k);
    rOther := sm.Get(other);
  }

  /** A map holding exactly the bindings of data, built by one Set per key. */
  method FromMap<K(==), V>(data: map<K, V>) returns (sm: SyncMap<K, V>)
    ensures fresh(sm) && sm.m == data
  {
    sm := new SyncMap<K, V>();
    var todo := data.Keys;
    while todo != {}
      invariant todo <= data.Keys
      invariant forall k :: k in sm.m <==> k in data && k !in todo
      invariant forall k :: k in sm.m ==> sm.m[k] == data[k]
      decreases todo
    {
      var k :| k in todo;
      sm.Set(k, data[k]);
      todo := todo - {k};
    }
  }

  /**
    "iterate all elements": an always-true visitor sees exactly the stored
    bindings; after every key is deleted it is never called.
  */
  method RangeVisitsAll<K(==), V>(data: map<K, V>) returns (visited: map<K, V>, afterDelete: seq<(K, V)>)
    ensures visited == data
    ensures afterDelete == []
  {
    var sm := FromMap(data);
    var calls := sm.Range((k: K, v: V) => true);
    visited := map[];
    for i := 0 to |calls|
      invariant forall k :: k in visited <==> exists j :: 0 <= j < i && calls[j].0 == k
      invariant forall k :: k in visited ==> visited[k] == data[k]
    {
      visited := visited[calls[i].0 := calls[i].1];
    }
    var keys := data.Keys;
    while keys != {}
      invariant keys <= data.Keys
      invariant sm.m.Keys <= keys
      decreases keys
    {
      var k :| k in keys;
      sm.Delete(k);
      keys := keys - {k};
    }
    assert sm.m.Keys == {};
    afterDelete := sm.Range((k: K, v: V) => true);
  }

  /** "early exit": a visitor that returns false is called exactly once on a non-empty map. */
  method RangeEarlyExit<K(==), V>(data: map<K, V>) returns (count: nat)
    requires |data| > 0
    ensures count == 1
  {
    var sm := FromMap(data);
    var calls := sm.Range((k: K, v: V) => false);
    assert calls[0].0 in data;  // the first visit already returns false
    count := |calls|;
  }

  /** "apply to existing key" and "apply to non-existent key". */
  method ApplyScenario<K(==), V>(k: K, v: V, absent: K, f: V -> V) returns (r: Option<V>, rAbsent: Option<V>)
    requires absent != k
    ensures r == Some(f(v))
    ensures rAbsent == None
  {
    var sm := new SyncMap<K, V>();
    sm.Set(k, v);
    sm.Apply(k, f);
    sm.Apply(absent, f);
    r := sm.Get(k);
    rAbsent := sm.Get(absent);
  }
}
