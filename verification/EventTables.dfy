// The scheduler's tables (scheduling.hh): buckets of events that invert a field of the events.
module EventTables {
  import opened Events

  /** The bucket of a key; a key without one has nobody. */
  function At<K>(table: map<K, set<Event>>, k: K): set<Event> {
    if k in table then table[k] else {}
  }

  /** Looking a bucket up makes it. */
  function Put<K>(table: map<K, set<Event>>, k: K, e: Event): (r: map<K, set<Event>>) {
    table[k := At(table, k) + {e}]
  }

  function Take<K>(table: map<K, set<Event>>, k: K, e: Event): (r: map<K, set<Event>>) {
    table[k := At(table, k) - {e}]
  }

  function Under<K(==)>(keys: map<Event, K>, k: K): set<Event> {
    set e | e in keys && keys[e] == k
  }

  /** The buckets are exactly the inverse of the events' keys. */
  ghost predicate Indexed<K(!new)>(table: map<K, set<Event>>, keys: map<Event, K>) {
    forall k :: At(table, k) == Under(keys, k)
  }

  lemma PutIndexed<K(!new)>(table: map<K, set<Event>>, keys: map<Event, K>, k: K, e: Event)
    requires Indexed(table, keys) && e !in keys
    ensures Indexed(Put(table, k, e), keys[e := k])
  {
    forall j ensures At(Put(table, k, e), j) == Under(keys[e := k], j) {
      assert At(table, j) == Under(keys, j);
    }
  }

  lemma TakeIndexed<K(!new)>(table: map<K, set<Event>>, keys: map<Event, K>, e: Event)
    requires Indexed(table, keys) && e in keys
    ensures Indexed(Take(table, keys[e], e), keys - {e})
  {
    forall j ensures At(Take(table, keys[e], e), j) == Under(keys - {e}, j) {
      assert At(table, j) == Under(keys, j);
    }
  }

  /** A bucket stays when its last event is taken out. */
  lemma SameKeys(table: map<nat, set<Event>>, k: nat, e: Event)
    ensures Put(table, k, e) != map[]
    ensures k in table ==> Take(table, k, e).Keys == table.Keys
  {
    assert k in Put(table, k, e);
  }

  /** A bucket that is empty goes. */
  function Trim<K>(handlers: map<K, set<Event>>, s: K): map<K, set<Event>> {
    if At(handlers, s) == {} then handlers - {s} else handlers
  }

  lemma TrimIndexed<K(!new)>(handlers: map<K, set<Event>>, keys: map<Event, K>, s: K)
    requires Indexed(handlers, keys)
    ensures Indexed(Trim(handlers, s), keys)
  {
    forall j ensures At(Trim(handlers, s), j) == Under(keys, j) {
      assert At(handlers, j) == Under(keys, j);
    }
  }

  /** The watched signals are exactly those with a handler, and no bucket is empty. */
  ghost predicate Watches(handlers: map<int, set<Event>>, watching: set<int>) {
    && (forall s :: s in watching <==> At(handlers, s) != {})
    && (forall s :: s in handlers ==> handlers[s] != {})
    && (forall s :: s in watching ==> Known(s))
  }

  /** A bucket that changes keeps the watched set in step only if the set follows. */
  lemma WatchStep(handlers: map<int, set<Event>>, watching: set<int>, changed: map<int, set<Event>>, s: int)
    requires Watches(handlers, watching) && changed - {s} == handlers - {s}
    ensures var state := At(changed, s) != {};
            && (s in watching <==> At(handlers, s) != {}) && (s in watching ==> Known(s))
            && ((s in watching) != state ==> !Watches(Trim(changed, s), watching))
            && (state && !Known(s) ==> !Watches(Trim(changed, s), watching))
            && (!state || Known(s) ==> Watches(Trim(changed, s), if state then watching + {s} else watching - {s}))
  {
    hide Known;
    var state := At(changed, s) != {};
    forall j | j != s ensures At(Trim(changed, s), j) == At(handlers, j) && (j in Trim(changed, s) <==> j in handlers) {
      assert j in changed - {s} <==> j in handlers - {s};
      if j in handlers { assert (changed - {s})[j] == (handlers - {s})[j]; }
    }
    assert At(Trim(changed, s), s) == At(changed, s);
    assert s in Trim(changed, s) ==> state;
  }

  lemma TrimAt(handlers: map<int, set<Event>>, s: int)
    ensures forall j :: At(Trim(handlers, s), j) == At(handlers, j)
  {
  }

  lemma PutAt<K(!new)>(table: map<K, set<Event>>, k: K, e: Event)
    ensures e in At(Put(table, k, e), k) && Put(table, k, e) - {k} == table - {k}
  {
  }

  lemma BucketOf(handlers: map<int, set<Event>>, keys: map<Event, int>, e: Event)
    requires Indexed(handlers, keys) && e in keys
    ensures e in At(handlers, keys[e]) && Take(handlers, keys[e], e) - {keys[e]} == handlers - {keys[e]}
    ensures At(Take(handlers, keys[e], e), keys[e]) == At(handlers, keys[e]) - {e}
    ensures forall s :: s != keys[e] ==> At(Take(handlers, keys[e], e), s) == At(handlers, s)
  {
    assert At(handlers, keys[e]) == Under(keys, keys[e]);
  }

  lemma WatchedAt(handlers: map<int, set<Event>>, watching: set<int>, s: int)
    requires Watches(handlers, watching)
    ensures s in watching <==> At(handlers, s) != {}
    ensures s in watching <==> s in handlers
    ensures s in watching ==> Known(s)
  {
  }

  function Except(keys: map<Event, int>, k: int): map<Event, int> {
    map e | e in keys && keys[e] != k :: keys[e]
  }

  function Beyond(keys: map<Event, nat>, now: nat): map<Event, nat> {
    map e | e in keys && keys[e] > now :: keys[e]
  }

  lemma WithoutIndexed(table: map<int, set<Event>>, keys: map<Event, int>, k: int)
    requires Indexed(table, keys)
    ensures Indexed(table - {k}, Except(keys, k))
  {
    var left := Except(keys, k);
    forall t ensures At(table - {k}, t) == Under(left, t) {
      assert At(table, t) == Under(keys, t);
    }
  }

  /** Every bucket up to a time goes. */
  function Later(table: map<nat, set<Event>>, now: nat): map<nat, set<Event>> {
    map t | t in table && t > now :: table[t]
  }

  lemma LaterIndexed(table: map<nat, set<Event>>, keys: map<Event, nat>, now: nat)
    requires Indexed(table, keys)
    ensures Indexed(Later(table, now), Beyond(keys, now))
  {
    var left := Beyond(keys, now);
    forall t ensures At(Later(table, now), t) == Under(left, t) {
      assert At(table, t) == Under(keys, t);
    }
  }
}
