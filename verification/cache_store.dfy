/** The single cached reference point: the local clock reading when the last
    accepted fetch completed and the remote time it reported. */
module CacheStore {
  import opened JsValues

  datatype Cache = Cache(localTimestamp: int, akamaiTimestamp: int)

  /** The cache before any fetch succeeded. */
  const Empty: Cache := Cache(0, 0)

  /** Whether the cache holds an entry: a local timestamp of zero is falsy and
      reads as "nothing cached". */
  predicate HasEntry(c: Cache) {
    c.localTimestamp != 0
  }

  /** Local milliseconds elapsed since the entry was written. */
  function Age(c: Cache, clock: int): int {
    clock - c.localTimestamp
  }

  /** `_shouldIUseCache(skipCache)` with the clock read at `clock`: the cache
      is trusted only when skipping was not asked for, an entry exists and
      the entry is younger than the cache lifetime. */
  function ShouldUseCache(c: Cache, cacheTTL: int, skipCache: JsValue, clock: int): (use: bool)
    ensures Truthy(skipCache) ==> !use
    ensures !HasEntry(c) ==> !use
    ensures use <==> !Truthy(skipCache) && HasEntry(c) && clock < c.localTimestamp + cacheTTL
  {
    !Truthy(skipCache) && HasEntry(c) && Age(c, clock) < cacheTTL
  }

  /** `_getCachedNow()` with the clock read at `clock`: the remote time moved
      forward by the local time elapsed since the fetch. */
  function CachedNow(c: Cache, clock: int): (ms: int)
    ensures ms - c.akamaiTimestamp == clock - c.localTimestamp
  {
    c.akamaiTimestamp + Age(c, clock)
  }

  /** Two readings from the same entry are exactly as far apart as the clock
      readings they were made at. */
  lemma CachedNowTracksClock(c: Cache, t1: int, t2: int)
    ensures CachedNow(c, t2) - CachedNow(c, t1) == t2 - t1
    ensures t1 <= t2 ==> CachedNow(c, t1) <= CachedNow(c, t2)
  {
  }

  /** Replacing the entry wholesale with a fresh reference point. */
  function Replace(localTimestamp: int, akamaiTimestamp: int): (c: Cache)
    ensures CachedNow(c, localTimestamp) == akamaiTimestamp
    ensures HasEntry(c) <==> localTimestamp != 0
  {
    Cache(localTimestamp, akamaiTimestamp)
  }
}
