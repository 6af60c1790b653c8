/** The read cache every hot lookup goes through, and how stale its answers can be when lookups,
    database reads, fills, writes and invalidations interleave in any way. */
module TtlCache {
  import opened Wrappers

  /** A point on the clock, which never runs backwards. */
  type Time = int

  datatype Entry<+V> = Entry(value: V, expires: Time)

  /** get: an entry still counts at the very instant it expires. */
  function Lookup<K, V>(m: map<K, Entry<V>>, key: K, now: Time): Option<V> {
    if key in m && now <= m[key].expires then Some(m[key].value) else None
  }

  class Cache<K(==), V> {
    const ttl: nat
    var m: map<K, Entry<V>>

    constructor (ttl: nat)
      ensures this.ttl == ttl && m == map[]
    {
      this.ttl := ttl;
      m := map[];
    }

    method Get(key: K, now: Time) returns (hit: Option<V>)
      ensures hit == Lookup(m, key, now)
    {
      if key !in m || now > m[key].expires { return None; }
      return Some(m[key].value);
    }

    method Set(key: K, value: V, now: Time)
      modifies this
      ensures Lookup(m, key, now) == Some(value)
      ensures m == After(ttl, old(m), Put(key, value, now))
    {
      m := m[key := Entry(value, now + ttl)];
    }

    method Invalidate(key: K)
      modifies this
      ensures forall now :: Lookup(m, key, now) == None
      ensures m == After(ttl, old(m), Drop(key))
    {
      m := m - {key};
    }

    method Clear()
      modifies this
      ensures m == After(ttl, old(m), DropAll)
    {
      m := map[];
    }
  }

  // ----- What a sequence of cache operations leaves behind -----

  datatype Event<+K, +V> = Put(key: K, value: V, at: Time) | Drop(key: K) | DropAll

  function After<K, V>(ttl: nat, m: map<K, Entry<V>>, e: Event<K, V>): map<K, Entry<V>> {
    match e
    case Put(key, value, at) => m[key := Entry(value, at + ttl)]
    case Drop(key) => m - {key}
    case DropAll => map[]
  }

  function AfterAll<K, V>(ttl: nat, events: seq<Event<K, V>>): map<K, Entry<V>> {
    if events == [] then map[] else After(ttl, AfterAll(ttl, events[..|events| - 1]), events[|events| - 1])
  }

  predicate Concerns<K(==), V>(e: Event<K, V>, key: K) { e.DropAll? || e.key == key }

  /** Event i put v under key, no longer than ttl before now, and no later event concerned the key. */
  ghost predicate LastPutAt<K, V>(ttl: nat, events: seq<Event<K, V>>, key: K, v: V, now: Time, i: nat) {
    && i < |events| && events[i].Put? && events[i].key == key && events[i].value == v
    && now <= events[i].at + ttl
    && forall j | i < j < |events| :: !Concerns(events[j], key)
  }

  ghost predicate LastPut<K, V>(ttl: nat, events: seq<Event<K, V>>, key: K, v: V, now: Time) {
    exists i: nat :: LastPutAt(ttl, events, key, v, now, i)
  }

  /** A lookup hits exactly if the last operation on its key was a put within the ttl, and yields what
      that put stored. */
  lemma {:induction false} HitIffLastPut<K, V>(ttl: nat, events: seq<Event<K, V>>, key: K, v: V, now: Time)
    ensures Lookup(AfterAll(ttl, events), key, now) == Some(v) <==> LastPut(ttl, events, key, v, now)
  {
    if events != [] {
      var n := |events| - 1;
      var front, e := events[..n], events[n];
      HitIffLastPut(ttl, front, key, v, now);
      if Concerns(e, key) {
        assert forall i: nat | LastPutAt(ttl, events, key, v, now, i) :: i == n by {
          assert Concerns(events[n], key);
        }
        assert e.Put? && e.value == v && now <= e.at + ttl ==> LastPutAt(ttl, events, key, v, now, n);
      } else {
        forall i: nat | LastPutAt(ttl, front, key, v, now, i) ensures LastPutAt(ttl, events, key, v, now, i) {
          assert forall j | i < j < n :: front[j] == events[j];
        }
        forall i: nat | LastPutAt(ttl, events, key, v, now, i) ensures LastPutAt(ttl, front, key, v, now, i) {
          assert i < n;
          assert forall j | i < j < n :: front[j] == events[j];
        }
      }
    }
  }
}
