/** Redis keys with a time to live: the owner-checked lock of RedisClient. */
module Leases {

  datatype Lock<V> = Lock(owner: V, expires: int)

  /** The key exists: it was set and its time has not run out. */
  predicate Live<K, V>(m: map<K, Lock<V>>, k: K, now: int) {
    k in m && now < m[k].expires
  }

  predicate Held<K, V(==)>(m: map<K, Lock<V>>, k: K, v: V, now: int) {
    Live(m, k, now) && m[k].owner == v
  }

  /** The script of `lock`: SETNX and EXPIRE as one step. */
  function Acquire<K, V>(m: map<K, Lock<V>>, k: K, v: V, now: int, ttl: nat): map<K, Lock<V>> {
    if Live(m, k, now) then m else m[k := Lock(v, now + ttl)]
  }

  /** The script of `renewLock`: EXPIRE when the stored value is the caller's. */
  function Renew<K, V(==)>(m: map<K, Lock<V>>, k: K, v: V, now: int, ttl: nat): map<K, Lock<V>> {
    if Held(m, k, v, now) then m[k := Lock(v, now + ttl)] else m
  }

  /** The script of `unlock`: DEL when the stored value is the caller's. */
  function Release<K, V(==)>(m: map<K, Lock<V>>, k: K, v: V, now: int): map<K, Lock<V>> {
    if Held(m, k, v, now) then m - {k} else m
  }

  /** What becomes of one command: it is answered, or lost before or after it took effect. */
  datatype Fate = Answered | LostBefore | LostAfter

  function Attempt<K, V>(m: map<K, Lock<V>>, k: K, v: V, now: int, ttl: nat, fate: Fate): map<K, Lock<V>> {
    if fate == LostBefore then m else Acquire(m, k, v, now, ttl)
  }

  /** The lock keys of a Redis server as RedisClient uses them; times in milliseconds. */
  class RedisLocks {
    var locks: map<string, Lock<string>>

    constructor ()
      ensures locks == map[]
    {
      locks := map[];
    }

    /**
     `lock`: try, and try again until `timeout` has passed since the first attempt. The i-th attempt
     happens at times[i] and finds the keys found[i], whatever other clients have done in between; its
     command may get lost, with or without effect.
     */
    method Acquire(key: string, value: string, expireSec: int, timeout: int,
                   times: seq<int>, found: seq<map<string, Lock<string>>>, fates: seq<Fate>)
      returns (ok: bool, tries: nat)
      requires |times| == |found| == |fates| > 0 && times[|times| - 1] - times[0] >= timeout
      modifies this
      ensures key == "" || value == "" || expireSec <= 0 ==> !ok && tries == 0 && locks == old(locks)
      ensures key != "" && value != "" && expireSec > 0 ==> 0 < tries <= |times|
      ensures tries > 0 ==> tries <= |times| && expireSec > 0
      ensures ok ==> tries > 0 && fates[tries - 1] == Answered && !Live(found[tries - 1], "lock:" + key, times[tries - 1])
      ensures !ok && tries > 0 ==> times[tries - 1] - times[0] >= timeout
      ensures forall i :: 0 <= i < (if ok then tries - 1 else tries) ==>
                            fates[i] != Answered || Live(found[i], "lock:" + key, times[i])
      ensures tries > 0 ==>
                locks == Attempt(found[tries - 1], "lock:" + key, value, times[tries - 1], 1000 * expireSec, fates[tries - 1])
    {
      ok, tries := false, 0;
      if key == "" || value == "" || expireSec <= 0 { return; }
      var k := "lock:" + key;
      while true
        invariant tries < |times| && !ok
        invariant forall i :: 0 <= i < tries ==> fates[i] != Answered || Live(found[i], k, times[i])
        invariant forall i :: 0 <= i < tries ==> times[i] - times[0] < timeout
        decreases |times| - tries
      {
        var now, fate := times[tries], fates[tries];
        locks := found[tries];
        tries := tries + 1;
        if fate != LostBefore && !(k in locks && now < locks[k].expires) {
          locks := locks[k := Lock(value, now + 1000 * expireSec)];
          if fate == Answered {
            ok := true;
            return;
          }
        }
        if now - times[0] >= timeout { return; }
      }
    }

    method RenewLock(key: string, value: string, expireSec: int, now: int) returns (ok: bool)
      modifies this
      ensures ok <==> key != "" && value != "" && expireSec > 0 && Held(old(locks), "lock:" + key, value, now)
      ensures locks == if ok then Renew(old(locks), "lock:" + key, value, now, 1000 * expireSec) else old(locks)
    {
      ok := false;
      if key == "" || value == "" || expireSec <= 0 { return; }
      var k := "lock:" + key;
      if k in locks && now < locks[k].expires && locks[k].owner == value {
        locks := locks[k := Lock(value, now + 1000 * expireSec)];
        ok := true;
      }
    }

    method Unlock(key: string, value: string, now: int) returns (ok: bool)
      modifies this
      ensures ok <==> key != "" && value != "" && Held(old(locks), "lock:" + key, value, now)
      ensures locks == if ok then Release(old(locks), "lock:" + key, value, now) else old(locks)
    {
      ok := false;
      if key == "" || value == "" { return; }
      var k := "lock:" + key;
      if k in locks && now < locks[k].expires && locks[k].owner == value {
        locks := locks - {k};
        ok := true;
      }
    }
  }
}
