// The in-memory Redis client of tests/conftest.py, which gives the commands and
// the scripts used by the service their meaning.

module Options {
  datatype Option<+T> = None | Some(value: T)
}

module Redis {
  import opened Options

  // Everything the four dictionaries of the client hold about one key.
  // Sorted-set members are serial numbers: the source makes each one unique with a fresh uuid4.
  datatype Entry<+V> = Entry(value: Option<V>, counter: Option<nat>, zset: Option<map<nat, real>>,
    expires: Option<real>)

  function Missing<V>(): Entry<V> { Entry(None, None, None, None) }

  // A key is gone strictly after its expiry instant.
  predicate Expired<V>(e: Entry<V>, time: real) {
    e.expires.Some? && time > e.expires.value
  }

  function Cleanup<V>(e: Entry<V>, time: real): Entry<V> {
    if Expired(e, time) then Missing() else e
  }

  // What GET answers.
  function Value<V>(e: Entry<V>, time: real): Option<V> {
    Cleanup(e, time).value
  }

  // A key that still answers.
  predicate Lives<V>(e: Entry<V>, time: real) {
    e.value.Some? && (e.expires.Some? ==> time <= e.expires.value)
  }

  lemma GetAnswersTheLive<V>(e: Entry<V>, time: real)
    ensures Value(e, time) == if Lives(e, time) then e.value else None
  {
  }

  // SETEX: unconditional, and without looking at the old content.
  function SetEx<V>(e: Entry<V>, v: V, seconds: real, time: real): Entry<V> {
    e.(value := Some(v), expires := Some(time + seconds))
  }

  // SET: keeps whatever expiry the live key has.
  function Set<V>(e: Entry<V>, v: V, time: real): Entry<V> {
    Cleanup(e, time).(value := Some(v))
  }

  // SET NX EX.
  function SetNxEx<V>(e: Entry<V>, v: V, seconds: real, time: real): (bool, Entry<V>) {
    var c := Cleanup(e, time);
    if c.value.Some? then (false, c) else (true, c.(value := Some(v), expires := Some(time + seconds)))
  }

  // It wins exactly a free key, and keeps it up to and including the last instant of its time.
  lemma SetNxWinsTheFree<V>(e: Entry<V>, v: V, seconds: real, time: real, later: real)
    ensures SetNxEx(e, v, seconds, time).0 <==> !Lives(e, time)
    ensures !Lives(e, time) && time <= later ==>
        Value(SetNxEx(e, v, seconds, time).1, later) == if later <= time + seconds then Some(v) else None
    ensures Lives(e, time) ==> SetNxEx(e, v, seconds, time).1 == e
  {
  }

  // DEL of one key; the expiry of a key that only held a sorted set stays behind.
  function Delete<V>(e: Entry<V>): Entry<V> {
    Entry(None, None, None, if e.value.Some? then None else e.expires)
  }

  // The compare-and-delete script.
  function CompareAndDelete<V(==)>(e: Entry<V>, expected: V, time: real): (bool, Entry<V>) {
    var c := Cleanup(e, time);
    if c.value == Some(expected) then (true, c.(value := None, expires := None)) else (false, c)
  }

  // It deletes exactly a live key with that content.
  lemma DeletesTheExpected<V>(e: Entry<V>, expected: V, time: real)
    ensures
      var (deleted, e') := CompareAndDelete(e, expected, time);
      && (deleted <==> Lives(e, time) && e.value == Some(expected))
      && Value(e', time) == if deleted then None else Value(e, time)
  {
  }

  // The fixed-window script: INCR, and EXPIRE on the first increment.
  function IncrExpire<V>(e: Entry<V>, ttl: real, time: real): (nat, Entry<V>) {
    var c := Cleanup(e, time);
    var n := (if c.counter.Some? then c.counter.value else 0) + 1;
    (n, c.(counter := Some(n), expires := if n == 1 then Some(time + ttl) else c.expires))
  }

  function Members<V>(e: Entry<V>): map<nat, real> {
    if e.zset.Some? then e.zset.value else map[]
  }

  // ZREMRANGEBYSCORE key -inf cutoff.
  function Pruned(z: map<nat, real>, cutoff: real): map<nat, real> {
    map m | m in z && z[m] > cutoff :: z[m]
  }

  function Prune<V>(e: Entry<V>, cutoff: real): Entry<V> {
    if e.zset.Some? then e.(zset := Some(Pruned(e.zset.value, cutoff))) else e
  }

  // How both scripts open a window: drop the key if expired, make sure there is a set, prune it.
  function Refresh<V>(e: Entry<V>, cutoff: real, time: real): Entry<V> {
    var c := Cleanup(e, time);
    c.(zset := Some(Pruned(Members(c), cutoff)))
  }

  // ZADD followed by EXPIRE.
  function AddMember<V>(e: Entry<V>, member: nat, score: real, ttl: real, time: real): Entry<V> {
    e.(zset := Some(Members(e)[member := score]), expires := Some(time + ttl))
  }

  // Seconds since the epoch.
  type Instant = t: real | t >= 0.0

  class FakeRedis<K(==, !new), V(==)> {
    var time: Instant
    var store: map<K, V>
    var counters: map<K, nat>
    var zsets: map<K, map<nat, real>>
    var expiry: map<K, real>

    constructor ()
      ensures forall k :: At(k) == Missing()
      ensures time == 0.0
    {
      time, store, counters, zsets, expiry := 0.0, map[], map[], map[], map[];
    }

    function At(key: K): Entry<V>
      reads this
    {
      Entry(if key in store then Some(store[key]) else None,
            if key in counters then Some(counters[key]) else None,
            if key in zsets then Some(zsets[key]) else None,
            if key in expiry then Some(expiry[key]) else None)
    }

    // Every key but `key` is as it was.
    twostate predicate Others(key: K)
      reads this
    {
      forall k :: k != key ==> At(k) == old(At(k))
    }

    // Only `key` may differ between the two states of a method, and no time passes.
    twostate predicate Only(key: K)
      reads this
    {
      time == old(time) && Others(key)
    }

    // What other clients of the server, and the clock, do between two commands of this one.
    method Interfere(key: K, now: real, e: Entry<V>)
      requires now >= time
      modifies this
      ensures At(key) == e && time == now && Others(key)
    {
      time := now;
      store := if e.value.Some? then store[key := e.value.value] else store - {key};
      counters := if e.counter.Some? then counters[key := e.counter.value] else counters - {key};
      zsets := if e.zset.Some? then zsets[key := e.zset.value] else zsets - {key};
      expiry := if e.expires.Some? then expiry[key := e.expires.value] else expiry - {key};
    }

    method CleanupIfExpired(key: K)
      modifies this
      ensures At(key) == Cleanup(old(At(key)), time) && Only(key)
    {
      if key in expiry && time > expiry[key] {
        store, counters, zsets, expiry := store - {key}, counters - {key}, zsets - {key}, expiry - {key};
      }
    }

    method Get(key: K) returns (r: Option<V>)
      modifies this
      ensures r == Value(old(At(key)), time)
      ensures At(key) == Cleanup(old(At(key)), time) && Only(key)
    {
      CleanupIfExpired(key);
      r := if key in store then Some(store[key]) else None;
    }

    method SetExpiring(key: K, seconds: real, v: V)
      modifies this
      ensures At(key) == SetEx(old(At(key)), v, seconds, time) && Only(key)
    {
      store := store[key := v];
      expiry := expiry[key := time + seconds];
    }

    method SetPlain(key: K, v: V)
      modifies this
      ensures At(key) == Set(old(At(key)), v, time) && Only(key)
    {
      CleanupIfExpired(key);
      store := store[key := v];
    }

    // The write of the breaker script, which does not look at the expiry of the key.
    method Store(key: K, v: V)
      modifies this
      ensures At(key) == old(At(key)).(value := Some(v)) && Only(key)
    {
      store := store[key := v];
    }

    method SetIfAbsent(key: K, v: V, seconds: real) returns (ok: bool)
      modifies this
      ensures (ok, At(key)) == SetNxEx(old(At(key)), v, seconds, time) && Only(key)
    {
      CleanupIfExpired(key);
      if key in store {
        return false;
      }
      store := store[key := v];
      expiry := expiry[key := time + seconds];
      ok := true;
    }

    method Del(key: K)
      modifies this
      ensures At(key) == Delete(old(At(key))) && Only(key)
    {
      if key in store {
        store, expiry := store - {key}, expiry - {key};
      }
      counters, zsets := counters - {key}, zsets - {key};
    }

    method DelIfEqual(key: K, expected: V) returns (deleted: bool)
      modifies this
      ensures (deleted, At(key)) == CompareAndDelete(old(At(key)), expected, time) && Only(key)
    {
      CleanupIfExpired(key);
      if key !in store || store[key] != expected {
        return false;
      }
      store, expiry := store - {key}, expiry - {key};
      deleted := true;
    }

    method Incr(key: K, ttl: real) returns (current: nat)
      modifies this
      ensures (current, At(key)) == IncrExpire(old(At(key)), ttl, time) && Only(key)
    {
      CleanupIfExpired(key);
      current := (if key in counters then counters[key] else 0) + 1;
      counters := counters[key := current];
      if current == 1 {
        expiry := expiry[key := time + ttl];
      }
    }

    method ZRemRangeByScore(key: K, cutoff: real)
      modifies this
      ensures At(key) == Prune(old(At(key)), cutoff) && Only(key)
    {
      if key in zsets {
        zsets := zsets[key := Pruned(zsets[key], cutoff)];
      }
    }

    method RefreshWindow(key: K, cutoff: real)
      modifies this
      ensures At(key) == Refresh(old(At(key)), cutoff, time) && Only(key)
    {
      CleanupIfExpired(key);
      zsets := zsets[key := Pruned(if key in zsets then zsets[key] else map[], cutoff)];
    }

    method ZAddExpire(key: K, member: nat, score: real, ttl: real)
      modifies this
      ensures At(key) == AddMember(old(At(key)), member, score, ttl, time) && Only(key)
    {
      zsets := zsets[key := (if key in zsets then zsets[key] else map[])[member := score]];
      expiry := expiry[key := time + ttl];
    }

    method ZCard(key: K) returns (n: nat)
      ensures n == |Members(At(key))|
    {
      n := if key in zsets then |zsets[key]| else 0;
    }
  }
}
