/**
 * The common base of the memory caches (engine/memory/AbstractMemoryCache.java):
 * a map from key to element descriptor, the region settings read at initialize,
 * the status, the spool chunk size, and registration of the shrinker.
 */
module MemoryCache {
  import opened Wrappers
  import opened CacheTypes

  /** The region settings the base reads. `cacheName` may be null. */
  datatype CompositeCacheAttributes = CompositeCacheAttributes(
    cacheName: Option<string>,
    spoolChunkSize: int,
    useMemoryShrinker: bool,
    shrinkerIntervalSeconds: int)

  /** The region hub, reduced to what `initialize` asks of it; its name may be null. */
  datatype CompositeCache = CompositeCache(cacheName: Option<string>, cacheAttributes: CompositeCacheAttributes)

  /** The runtime exceptions registering the shrinker can raise. */
  datatype SchedulingFailure = NullPointer | IllegalArgument

  /** What the memory cache keeps per key: the element (eviction bookkeeping of the
      concrete caches is not modelled). */
  datatype MemoryElementDescriptor<K, V> = MemoryElementDescriptor(ce: CacheElement<K, V>)

  /** A periodic task: a shrinker run over one memory cache, with its first delay
      and its period in seconds. */
  datatype ScheduledTask = ShrinkerTask(target: object, initialDelaySeconds: int, periodSeconds: int)

  /** The shared scheduler, reduced to the tasks registered with it. */
  class Scheduler {
    var tasks: seq<ScheduledTask>

    constructor ()
      ensures tasks == []
    {
      tasks := [];
    }

    /** Registers a periodic task. A period that is not positive is refused with
        an `IllegalArgumentException` (`rejected`), and nothing is registered. */
    method ScheduleAtFixedRate(task: ScheduledTask) returns (rejected: bool)
      modifies this
      ensures rejected <==> task.periodSeconds <= 0
      ensures !rejected ==> tasks == old(tasks) + [task]
      ensures rejected ==> tasks == old(tasks)
    {
      rejected := task.periodSeconds <= 0;
      if !rejected {
        tasks := tasks + [task];
      }
    }
  }

  /** The region name a cache reports: the settings' name when set, else the region
      name captured at initialize. */
  function ReportedName(attributes: CompositeCacheAttributes, regionName: Option<string>): (r: Option<string>)
    ensures attributes.cacheName.Some? ==> r == attributes.cacheName
    ensures attributes.cacheName.None? ==> r == regionName
    ensures regionName.Some? ==> r.Some?
  {
    if attributes.cacheName.Some? then attributes.cacheName else regionName
  }

  class AbstractMemoryCache<K(==), V> {
    /** The region name, null until initialize. */
    var cacheName: Option<string>
    /** The cached elements by key; named `map` in the Java class, a Dafny keyword. */
    var items: map<K, MemoryElementDescriptor<K, V>>
    /** The region settings, null until initialize. */
    var cacheAttributes: Option<CompositeCacheAttributes>
    /** The region hub, null until initialize. */
    var cache: Option<CompositeCache>
    /** The status, null until initialize. */
    var status: Option<CacheStatus>
    /** The spool chunk size, copied from the region settings at initialize. */
    var chunkSize: int

    predicate Initialized()
      reads this
    {
      cacheAttributes.Some?
    }

    /** A cache as reflection creates it, before initialize. */
    constructor ()
      ensures cacheName == None && cacheAttributes == None && cache == None && status == None
      ensures items == map[] && chunkSize == 0
    {
      cacheName := None;
      items := map[];
      cacheAttributes := None;
      cache := None;
      status := None;
      chunkSize := 0;
    }

    /** Binds the cache to its region: a fresh empty map, the chunk size from the
        region settings, status ALIVE. The reported name is null only when both the
        settings and the hub leave it null. */
    method Initialize(hub: CompositeCache)
      modifies this
      ensures cacheName == hub.cacheName && cacheAttributes == Some(hub.cacheAttributes)
      ensures cache == Some(hub)
      ensures items == map[]
      ensures chunkSize == hub.cacheAttributes.spoolChunkSize
      ensures status == Some(ALIVE) && GetStatus() == Some(ALIVE)
      ensures Initialized() && GetSize() == 0
      ensures GetCacheName() == ReportedName(hub.cacheAttributes, hub.cacheName)
      ensures GetCacheName().Some? <==> hub.cacheAttributes.cacheName.Some? || hub.cacheName.Some?
    {
      cacheName := hub.cacheName;
      cacheAttributes := Some(hub.cacheAttributes);
      cache := Some(hub);
      items := map[];
      chunkSize := hub.cacheAttributes.spoolChunkSize;
      status := Some(ALIVE);
    }

    /** Registers a shrinker over this cache, starting now and repeating at the
        configured interval, when the region uses the memory shrinker. Without
        settings (before initialize) the read of the flag throws
        `NullPointerException`; the scheduler's `IllegalArgumentException` for an
        interval that is not positive reaches the caller too. Whatever is thrown,
        nothing is registered. */
    method SetScheduledExecutorService(scheduler: Scheduler) returns (thrown: Option<SchedulingFailure>)
      modifies scheduler
      ensures cacheAttributes.None? ==> thrown == Some(NullPointer)
      ensures cacheAttributes.Some? ==>
                (thrown == Some(IllegalArgument) <==>
                   cacheAttributes.value.useMemoryShrinker && cacheAttributes.value.shrinkerIntervalSeconds <= 0)
      ensures thrown == if cacheAttributes.None? then Some(NullPointer)
                        else if cacheAttributes.value.useMemoryShrinker
                                && cacheAttributes.value.shrinkerIntervalSeconds <= 0 then Some(IllegalArgument)
                        else None
      ensures cacheAttributes.Some? && cacheAttributes.value.useMemoryShrinker && thrown.None? ==>
                scheduler.tasks == old(scheduler.tasks)
                  + [ShrinkerTask(this, 0, cacheAttributes.value.shrinkerIntervalSeconds)]
      ensures cacheAttributes.None? || !cacheAttributes.value.useMemoryShrinker || thrown.Some? ==>
                scheduler.tasks == old(scheduler.tasks)
    {
      if cacheAttributes.None? {
        return Some(NullPointer);
      }
      thrown := None;
      if cacheAttributes.value.useMemoryShrinker {
        var rejected := scheduler.ScheduleAtFixedRate(ShrinkerTask(this, 0, cacheAttributes.value.shrinkerIntervalSeconds));
        if rejected {
          thrown := Some(IllegalArgument);
        }
      }
    }

    /** Looks an element up without touching recency: the stored element for a
        key in the map, null otherwise. Being a function, it changes nothing. */
    function GetQuiet(key: K): (ce: Option<CacheElement<K, V>>)
      reads this
      ensures ce.Some? <==> key in items
      ensures key in items ==> ce == Some(items[key].ce)
    {
      if key in items then Some(items[key].ce) else None
    }

    /** Collects the elements found for the requested keys; keys that are absent
        are left out, and a null or empty request gives an empty map. The
        per-key lookup is the map lookup the concrete caches' `get` performs. */
    method GetMultiple(keys: Option<set<K>>) returns (elements: map<K, CacheElement<K, V>>)
      ensures keys.None? ==> elements == map[]
      ensures keys.Some? ==> elements.Keys == keys.value * items.Keys
      ensures forall k :: k in elements ==> k in items && elements[k] == items[k].ce
    {
      elements := map[];
      if keys.Some? && keys.value != {} {
        var remaining := keys.value;
        while remaining != {}
          invariant remaining <= keys.value
          invariant elements.Keys == (keys.value - remaining) * items.Keys
          invariant forall k :: k in elements ==> k in items && elements[k] == items[k].ce
          decreases remaining
        {
          var key :| key in remaining;
          var element := GetQuiet(key);
          if element.Some? {
            elements := elements[key := element.value];
          }
          remaining := remaining - {key};
        }
      }
    }

    /** Clears the map; nothing else changes. */
    method RemoveAll()
      modifies this`items
      ensures items == map[] && GetSize() == 0
    {
      items := map[];
    }

    /** The base class has nothing to release on dispose: no field changes. */
    method Dispose()
      ensures items == old(items) && status == old(status)
    {
    }

    /** How many keys the map holds: zero exactly when it is empty. */
    function GetSize(): (n: nat)
      reads this
      ensures n == |items.Keys|
      ensures n == 0 <==> items == map[]
    {
      |items|
    }

    /** The status field: null until initialize sets it (ALIVE, see `Initialize`). */
    function GetStatus(): (s: Option<CacheStatus>)
      reads this
      ensures s.None? <==> status.None?
      ensures s.Some? ==> s.value == status.value
    {
      status
    }

    /** The settings' region name when set, else the one captured at initialize. */
    function GetCacheName(): (r: Option<string>)
      reads this
      requires Initialized()
      ensures cacheAttributes.value.cacheName.Some? ==> r == cacheAttributes.value.cacheName
      ensures cacheAttributes.value.cacheName.None? ==> r == cacheName
    {
      ReportedName(cacheAttributes.value, cacheName)
    }

    /** The region settings; null before initialize or after null is set. */
    function GetCacheAttributes(): (r: Option<CompositeCacheAttributes>)
      reads this
      ensures r.Some? <==> Initialized()
      ensures r.Some? ==> r.value == cacheAttributes.value
    {
      cacheAttributes
    }

    /** Replaces the region settings, null included; nothing else changes. */
    method SetCacheAttributes(cattr: Option<CompositeCacheAttributes>)
      modifies this`cacheAttributes
      ensures GetCacheAttributes() == cattr
      ensures Initialized() <==> cattr.Some?
    {
      cacheAttributes := cattr;
    }
  }
}
