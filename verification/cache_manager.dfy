/**
 The compiled-schema cache: a plain keyed store with `get` and `set`, no
 eviction and no expiry. Entries are artifacts, never `undefined`, so a `get`
 that yields nothing means the key is absent.
 */
module CacheManager {
  import opened Values

  type Cache = map<string, Artifact>

  /** `cacheManager.get(key)`: the stored artifact, or `undefined` when the key is absent. */
  function Get(c: Cache, key: string): (r: Option<Artifact>)
    ensures r.None? <==> key !in c
    ensures r.Some? ==> r.value == c[key]
  {
    if key in c then Some(c[key]) else None
  }

  /** `cacheManager.set(key, a)`: overwrites the entry for `key` and leaves every other key alone. */
  function Set(c: Cache, key: string, a: Artifact): (r: Cache)
    ensures Get(r, key) == Some(a)
    ensures r.Keys == c.Keys + {key}
    ensures forall k :: k in c && k != key ==> r[k] == c[k]
  {
    c[key := a]
  }
}
