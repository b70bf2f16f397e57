/**
 * The per-region registry of file disk caches
 * (auxiliary/disk/file/FileDiskCacheManager.java): one cache per region name,
 * created on first request and handed out again on every later one.
 */
module FileDiskCacheRegistry {
  import opened Wrappers

  /** The settings of one file disk cache. `cacheName` may be null. */
  datatype FileDiskCacheAttributes = FileDiskCacheAttributes(
    cacheName: Option<string>,
    diskPath: Option<string>,
    maxPurgatorySize: int,
    shutdownSpoolTimeLimit: int,
    allowRemoveAll: bool)

  /** A file disk cache, reduced to the settings it was created with. */
  class FileDiskCache {
    const attributes: FileDiskCacheAttributes

    constructor (attributes: FileDiskCacheAttributes)
      ensures this.attributes == attributes
    {
      this.attributes := attributes;
    }
  }

  /** The registry after a get-or-create of `name`, where `candidate` is the cache
      that would be created: an existing entry wins, otherwise the candidate is
      added. Exactly `name` ends up mapped, other names are untouched, and the
      registry grows by one entry exactly when the name was new. */
  function Registered<C>(caches: map<string, C>, name: string, candidate: C): (r: map<string, C>)
    ensures name in r && r[name] == (if name in caches then caches[name] else candidate)
    ensures r.Keys == caches.Keys + {name}
    ensures forall n :: n in caches && n != name ==> r[n] == caches[n]
    ensures name in caches ==> r == caches
    ensures name !in caches ==> |r| == |caches| + 1
  {
    if name in caches then caches else caches[name := candidate]
  }

  /** A second get-or-create of the same name changes nothing and finds the first
      one's cache, whatever it would have created. */
  lemma RegisteredIdempotent<C>(caches: map<string, C>, name: string, first: C, second: C)
    ensures Registered(Registered(caches, name, first), name, second) == Registered(caches, name, first)
    ensures Registered(Registered(caches, name, first), name, second)[name]
         == Registered(caches, name, first)[name]
  {
  }

  class FileDiskCacheManager {
    /** The disk cache made for each region name so far. */
    var caches: map<string, FileDiskCache>
    /** The settings copied for caches requested by name. */
    const defaultCacheAttributes: FileDiskCacheAttributes

    constructor (defaultCacheAttributes: FileDiskCacheAttributes)
      ensures caches == map[] && this.defaultCacheAttributes == defaultCacheAttributes
    {
      caches := map[];
      this.defaultCacheAttributes := defaultCacheAttributes;
    }

    /** The cache for the settings' region name: the registered one if there is
        one, with the registry unchanged; otherwise a new cache with these settings,
        registered under that name. Afterwards the name maps to the result, and a
        second call with the same name returns the same cache. */
    method GetCache(cacheAttributes: FileDiskCacheAttributes) returns (cache: FileDiskCache)
      requires cacheAttributes.cacheName.Some?
      modifies this`caches
      ensures caches == Registered(old(caches), cacheAttributes.cacheName.value, cache)
      ensures cacheAttributes.cacheName.value in old(caches) ==>
                cache == old(caches)[cacheAttributes.cacheName.value] && caches == old(caches)
      ensures cacheAttributes.cacheName.value !in old(caches) ==>
                fresh(cache) && cache.attributes == cacheAttributes
                && caches == old(caches)[cacheAttributes.cacheName.value := cache]
      ensures cacheAttributes.cacheName.value in caches && caches[cacheAttributes.cacheName.value] == cache
    {
      var cacheName := cacheAttributes.cacheName.value;
      if cacheName in caches {
        cache := caches[cacheName];
      } else {
        cache := new FileDiskCache(cacheAttributes);
        caches := caches[cacheName := cache];
      }
    }

    /** The cache for a region name, created from a copy of the default settings
        carrying that name when the name is new. */
    method GetCacheByName(cacheName: string) returns (cache: FileDiskCache)
      modifies this`caches
      ensures caches == Registered(old(caches), cacheName, cache)
      ensures cacheName in old(caches) ==> cache == old(caches)[cacheName] && caches == old(caches)
      ensures cacheName !in old(caches) ==>
                fresh(cache) && cache.attributes == defaultCacheAttributes.(cacheName := Some(cacheName))
      ensures cacheName in caches && caches[cacheName] == cache
    {
      var cacheAttributes := defaultCacheAttributes.(cacheName := Some(cacheName));
      cache := GetCache(cacheAttributes);
    }
  }
}
