/** The client factory's cache: what each section under the lock does, and the class that
    holds the map. Clients are numbered as they are built. */
module ClientCache {
  import opened Wrappers

  type Time = int  // nanoseconds since the zero time
  type ClientId = nat

  const MAX_DURATION: int := 0x7FFF_FFFF_FFFF_FFFF

  // Subtraction of times saturates at the ends of the 64-bit duration range.
  function Sub(a: Time, b: Time): int {
    if a - b > MAX_DURATION then MAX_DURATION
    else if a - b < -MAX_DURATION - 1 then -MAX_DURATION - 1
    else a - b
  }

  predicate ValidTtl(ttl: int) { 0 < ttl <= MAX_DURATION }

  datatype Entry = Entry(client: ClientId, fingerprint: string, createdAt: Time)

  // The fields guarded by the lock, and the clients whose connections were closed.
  datatype Store = Store(cache: map<string, Entry>, lastSweep: Time, closed: set<ClientId>)

  function CacheHit(cache: map<string, Entry>, ttl: int, key: string, fp: string, now: Time): Option<ClientId> {
    if key !in cache then None
    else if cache[key].fingerprint != fp then None
    else if Sub(now, cache[key].createdAt) >= ttl then None
    else Some(cache[key].client)
  }

  predicate Expired(e: Entry, ttl: int, now: Time) { Sub(now, e.createdAt) >= ttl }

  function Survivors(cache: map<string, Entry>, ttl: int, now: Time): map<string, Entry> {
    map k | k in cache && !Expired(cache[k], ttl, now) :: cache[k]
  }

  function ExpiredClients(cache: map<string, Entry>, ttl: int, now: Time): set<ClientId> {
    set k | k in cache && Expired(cache[k], ttl, now) :: cache[k].client
  }

  predicate SweepIsDue(s: Store, ttl: int, now: Time) { Sub(now, s.lastSweep) >= ttl }

  function Sweep(s: Store, ttl: int, now: Time): Store {
    if !SweepIsDue(s, ttl, now) then s
    else Store(Survivors(s.cache, ttl, now), now, s.closed + ExpiredClients(s.cache, ttl, now))
  }

  function Forget(s: Store, key: string): Store {
    if key in s.cache then s.(cache := s.cache - {key}, closed := s.closed + {s.cache[key].client}) else s
  }

  function Put(s: Store, key: string, fp: string, client: ClientId, at: Time): Store {
    Forget(s, key).(cache := s.cache[key := Entry(client, fp, at)])
  }

  /** The second section of CreateClient: another goroutine may have stored a usable client
      meanwhile. The clock is read for the check, for the entry and for the sweep. */
  function StoreSection(s: Store, ttl: int, key: string, fp: string, client: ClientId, t1: Time, t2: Time, t3: Time): (Store, ClientId) {
    match CacheHit(s.cache, ttl, key, fp, t1)
    case Some(cached) => (s, cached)
    case None => (Sweep(Put(s, key, fp, client, t2), ttl, t3), client)
  }

  class ClientFactory {
    const ttl: int
    var cache: map<string, Entry>
    var lastSweep: Time
    var closed: set<ClientId>

    constructor (ttl: int)
      ensures this.ttl == ttl && State() == Store(map[], 0, {})
    {
      this.ttl := ttl;
      cache, lastSweep, closed := map[], 0, {};
    }

    function State(): Store
      reads this
    {
      Store(cache, lastSweep, closed)
    }

    method ForgetInstance(key: string)
      modifies this
      ensures State() == Forget(old(State()), key)
    {
      if key in cache {
        closed := closed + {cache[key].client};
      }
      cache := cache - {key};
    }

    // Entries are closed and deleted while the map is being iterated, in any order.
    method SweepExpiredLocked(now: Time)
      modifies this
      ensures State() == Sweep(old(State()), ttl, now)
    {
      if Sub(now, lastSweep) < ttl { return; }
      var left := cache.Keys;
      while left != {}
        invariant left <= cache.Keys <= old(cache.Keys) && lastSweep == old(lastSweep)
        invariant forall k :: k in cache ==> cache[k] == old(cache[k])
        invariant forall k :: k in old(cache) ==>
          (k in cache <==> k in left || !Expired(old(cache[k]), ttl, now))
        invariant forall c :: c in closed <==>
          c in old(closed) || exists k :: k in old(cache) && k !in left && Expired(old(cache[k]), ttl, now) && old(cache[k]).client == c
        decreases left
      {
        var key :| key in left;
        left := left - {key};
        if Sub(now, cache[key].createdAt) >= ttl {
          closed := closed + {cache[key].client};
          cache := cache - {key};
        }
      }
      lastSweep := now;
      assert cache == Survivors(old(cache), ttl, now);
      assert closed == old(closed) + ExpiredClients(old(cache), ttl, now);
    }

    method StoreLocked(key: string, fp: string, client: ClientId, t1: Time, t2: Time, t3: Time) returns (c: ClientId)
      modifies this
      ensures (State(), c) == StoreSection(old(State()), ttl, key, fp, client, t1, t2, t3)
    {
      var hit := CacheHit(cache, ttl, key, fp, t1);
      if hit.Some? { return hit.value; }
      if key in cache {
        closed := closed + {cache[key].client};
      }
      cache := cache[key := Entry(client, fp, t2)];
      SweepExpiredLocked(t3);
      c := client;
    }
  }
}
