/** The TTL result cache (utils/cache.js): a module-level map from key to
    `{t, data}`, whose expired entries are dropped lazily when read. The clock
    `Date.now()` is the explicit parameter `now`. */
module ResultCache {
  import opened Values

  datatype Entry = Entry(t: int, data: Json)

  /** The source compares with a strict `>`: an entry exactly `ttl` old is
      still served. */
  predicate Expired(e: Entry, now: int, ttl: int)
  {
    now - e.t > ttl
  }

  class Cache {
    const ttl: int
    var store: map<string, Entry>

    ghost predicate Valid()
      reads this
    {
      ttl > 0
    }

    constructor (ttl: int)
      requires ttl > 0
      ensures Valid() && this.ttl == ttl && store == map[]
    {
      this.ttl := ttl;
      store := map[];
    }

    /** `getFromCache(key)`: None stands for the `null` it returns. */
    method GetFromCache(key: string, now: int) returns (r: Option<Json>)
      requires Valid()
      modifies this`store
      ensures Valid()
      // absent key: a miss, nothing changes
      ensures key !in old(store) ==> r == None && store == old(store)
      // expired entry: a miss, and exactly that key is evicted
      ensures key in old(store) && Expired(old(store)[key], now, ttl) ==>
                r == None && key !in store && store == old(store) - {key}
      // fresh entry: a hit, and the stored timestamp is not refreshed
      ensures key in old(store) && !Expired(old(store)[key], now, ttl) ==>
                r == Some(old(store)[key].data) && store == old(store)
      ensures forall k :: k != key && k in old(store) ==> k in store && store[k] == old(store)[k]
      ensures store.Keys <= old(store).Keys
    {
      if key !in store {
        return None;
      }
      var entry := store[key];
      if now - entry.t > ttl {
        store := store - {key};
        return None;
      }
      r := Some(entry.data);
    }

    /** `setCache(key, data)`: overwrite, stamping the entry with `now`. */
    method SetCache(key: string, data: Json, now: int)
      requires Valid()
      modifies this`store
      ensures Valid()
      ensures store == old(store)[key := Entry(now, data)]
      ensures forall k :: k != key ==> (k in store <==> k in old(store))
      ensures forall k :: k != key && k in store ==> store[k] == old(store)[k]
    {
      store := store[key := Entry(now, data)];
    }
  }

  /** A stored payload is served for the whole TTL window, including its last
      instant, and a read inside the window leaves the cache as it was. */
  method HitWithinTtl(c: Cache, key: string, data: Json, t0: int, now: int) returns (r: Option<Json>)
    requires c.Valid() && now - t0 <= c.ttl
    modifies c`store
    ensures r == Some(data)
    ensures c.store == old(c.store)[key := Entry(t0, data)]
  {
    c.SetCache(key, data, t0);
    r := c.GetFromCache(key, now);
  }

  /** Once a read has found the entry expired, an immediate second read misses
      too: eviction is final. */
  method MissAfterExpiry(c: Cache, key: string, now: int) returns (first: Option<Json>, second: Option<Json>)
    requires c.Valid() && key in c.store && Expired(c.store[key], now, c.ttl)
    modifies c`store
    ensures first == None && second == None
    ensures c.store == old(c.store) - {key}
  {
    first := c.GetFromCache(key, now);
    second := c.GetFromCache(key, now);
  }
}
