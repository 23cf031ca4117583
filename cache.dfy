/**
 * The response cache: a map from key to (timestamp, value) with a freshness
 * window `maxAge`. Entries are evicted lazily, by the read that finds them
 * stale. Time is an explicit parameter (the source reads `Date.now()`).
 */
module ApiCaching {

  import opened Json

  /** Five minutes, the window the cache starts with. */
  const DefaultMaxAge: int := 5 * 60 * 1000
  /** Ten minutes, the window a mobile browser gets. */
  const MobileMaxAge: int := 10 * 60 * 1000

  datatype Entry = Entry(timestamp: int, value: Json)

  /** An entry is served while its age does not exceed the window (the stale test is a strict `>`). */
  predicate IsFresh(e: Entry, now: int, maxAge: int) {
    !(now - e.timestamp > maxAge)
  }

  /** What `get(key)` returns, and the map that remains after it. */
  datatype Read = Read(result: Option<Json>, remaining: map<string, Entry>)

  function Lookup(data: map<string, Entry>, key: string, now: int, maxAge: int): (r: Read)
    ensures r.result.Some? <==> key in data && now - data[key].timestamp <= maxAge
    ensures r.result.Some? ==> r.result.value == data[key].value
    ensures r.remaining.Keys <= data.Keys
    ensures forall k :: k in r.remaining ==> r.remaining[k] == data[k]
    ensures forall k :: k in data && k != key ==> k in r.remaining
    ensures key in r.remaining <==> r.result.Some?
  {
    if key !in data then Read(None, data)
    else if !IsFresh(data[key], now, maxAge) then Read(None, data - {key})
    else Read(Some(data[key].value), data)
  }

  /** What `set(key, value)` leaves in the map. */
  function Store(data: map<string, Entry>, key: string, value: Json, now: int): (r: map<string, Entry>)
    ensures r.Keys == data.Keys + {key}
    ensures r[key] == Entry(now, value)
    ensures forall k :: k in data && k != key ==> r[k] == data[k]
  {
    data[key := Entry(now, value)]
  }

  /** A value read back at most `maxAge` after it was stored is the stored value. */
  lemma ReadAfterStore(data: map<string, Entry>, key: string, value: Json, t: int, now: int, maxAge: int)
    requires now - t <= maxAge
    ensures Lookup(Store(data, key, value, t), key, now, maxAge).result == Some(value)
  {
  }

  /** An entry exactly `maxAge` old is still served. */
  lemma BoundaryAgeIsFresh(data: map<string, Entry>, key: string, value: Json, t: int, maxAge: int)
    ensures Lookup(Store(data, key, value, t), key, t + maxAge, maxAge).result == Some(value)
  {
  }

  /** Expiry is monotonic: once a read misses for age, every later read misses too. */
  lemma ExpiryIsMonotonic(data: map<string, Entry>, key: string, t1: int, t2: int, maxAge: int)
    requires key in data && t1 <= t2
    requires Lookup(data, key, t1, maxAge).result.None?
    ensures Lookup(data, key, t2, maxAge).result.None?
    ensures key !in Lookup(data, key, t2, maxAge).remaining
  {
  }

  /** A read that serves a value leaves the map as it was. */
  lemma HitChangesNothing(data: map<string, Entry>, key: string, now: int, maxAge: int)
    requires Lookup(data, key, now, maxAge).result.Some?
    ensures Lookup(data, key, now, maxAge).remaining == data
  {
  }

  class ApiCache {
    var data: map<string, Entry>
    var maxAge: int
    /** The copy mirrored to local storage under 'apiCache'. */
    ghost var mirror: map<string, Entry>

    /** A fresh cache; loading the mirrored copy back (`init`) is not modelled. */
    constructor ()
      ensures data == map[] && maxAge == DefaultMaxAge && mirror == map[]
    {
      data := map[];
      maxAge := DefaultMaxAge;
      mirror := map[];
    }

    /** Overwrites the entry for `key` with the current time and mirrors the whole map. */
    method Set(key: string, value: Json, now: int)
      modifies this`data, this`mirror
      ensures data == Store(old(data), key, value, now)
      ensures mirror == data
    {
      data := data[key := Entry(now, value)];
      mirror := data;
    }

    /** Serves a fresh entry or evicts a stale one; the eviction is not mirrored. */
    method Get(key: string, now: int) returns (r: Option<Json>)
      modifies this`data
      ensures Read(r, data) == Lookup(old(data), key, now, maxAge)
      ensures mirror == old(mirror)
    {
      if key !in data {
        return None;
      }
      var entry := data[key];
      if now - entry.timestamp > maxAge {
        data := data - {key};
        return None;
      }
      return Some(entry.value);
    }

    /** Empties the map and removes the mirrored copy. */
    method Clear()
      modifies this`data, this`mirror
      ensures data == map[] && mirror == map[]
    {
      data := map[];
      mirror := map[];
    }
  }

  /** A stale read evicts the entry in memory while the mirrored copy still holds it. */
  method EvictionIsNotMirrored(c: ApiCache, key: string, value: Json, t: int, now: int)
    requires now - t > c.maxAge
    modifies c
    ensures key in c.mirror && key !in c.data
  {
    c.Set(key, value, t);
    var r := c.Get(key, now);
  }
}
