# A verified model of the JCS cache engine's auxiliary plumbing

This project models five small stateful parts of the Java Caching System (JCS)
cache engine in Dafny and proves their contracts:

- **The no-wait lateral wrapper** (`LateralNoWait`). It sits in front of a lateral
  (peer-to-peer) auxiliary cache. Writes (`update`, `remove`, `removeAll`,
  `dispose`) become events on the wrapper's event queue. Reads (`get`,
  `getMultiple`, `getMatching`) call the lateral cache directly. A failed enqueue
  or a failed read destroys the queue, which turns the wrapper's status to ERROR.
  Only `resetEventQ` / `fixCache` bring it back.
- **The memory-cache base** (`MemoryCache`): the key-to-descriptor map, initialize,
  quiet lookup, multi-key lookup, clearing, the cache-name fallback and the
  conditional registration of the shrinker with the scheduler.
- **The event-queue factory** (`EventQueueFactory`): the rule that picks a
  single-worker, pooled or custom queue from a pool-type string, and the
  short overload's defaults (10 failures, 500 ms).
- **The lateral attributes** (`LateralAttributes`): the settings object whose two
  transport setters keep a transport code and a transport name in step.
- **The file disk cache manager** (`FileDiskCacheRegistry`): get-or-create of one
  disk cache per region name.

`CacheTypes` holds the status enumeration, the cache element and Java's 32-bit
`int` increment. `CacheEventQueue` holds the event queue as the wrapper sees it:
a `working` flag and the events it has accepted, in order. `Wrappers` holds
`Option`, whose `None` stands for Java's `null`.

Objects whose fields the source updates in place are Dafny classes with
`modifies` clauses. These are the memory cache, the attributes, the wrapper, the
queue and the manager. Where a new state is worth reasoning
about on its own, it is given as a pure function of the old state, and the
lemmas are proved about those functions: `WithTransmissionType` and
`WithTransmissionTypeName` for the attributes' transport setters (over the
`AttributeState` value), and `Registered` for the manager's get-or-create. A
read through the wrapper is described the same way by `GuardedRead`: its value,
its transport calls and whether it stops the queue.

Nothing from outside the process is modelled directly. Each outside event is an
explicit parameter:
- `ioFault: bool` says whether an enqueue fails with an I/O error.
- `ReadFault` (`Clean`, `UnmarshalFault`, `IoFault`) says how each transport
  call of a read goes.
- `instantiable: string -> bool` says whether a custom queue class can be loaded
  by name.
- `matches: K -> bool` stands for a key pattern.

Values that live in interfaces outside this model are written out as constants.
- `ICacheEventQueue` gives `SINGLE_QUEUE_TYPE = "SINGLE"` and
  `POOLED_QUEUE_TYPE = "POOLED"`.
- `ILateralCacheAttributes` gives `HTTP = 1`, `UDP = 2`, `TCP = 3`, `XMLRPC = 4`
  and `DEFAULT_ZOMBIE_QUEUE_MAX_SIZE = 1000`.

The proofs depend only on the four transport codes being distinct and on the
two queue names differing even when case is ignored (they start with `S` and
`P`).

Three behaviours of the code shape the model.
- Every write ends in `eventQueue.destroy()` when the enqueue throws
  (LateralCacheNoWait.java:111-124, 251-264, 267-278, 281-292). The queue's own
  code is not part of this model; a destroyed queue is modelled as refusing
  every event, and destroying it again changes nothing. So a write to a stopped
  wrapper leaves the queue stopped and its events as they were.
- `getMatching` increments the get count, as `get` does
  (LateralCacheNoWait.java:198).
- `getKeySet` calls the lateral cache without looking at the status, and
  destroys the queue on an I/O failure (LateralCacheNoWait.java:231-243).

## Model

| member | source | states |
|---|---|---|
| `CacheTypes.Inc32` | src/java/org/apache/commons/jcs/auxiliary/lateral/LateralCacheNoWait.java:135 | a Java `int` counter increment: one more, except that the largest value wraps to the smallest |
| `CacheTypes.Inc32OfWrap` | src/java/org/apache/commons/jcs/auxiliary/lateral/LateralCacheNoWait.java:176-178 | one increment step: incrementing a counter that holds start plus n, truncated to 32 bits, gives start plus n plus one, truncated; this keeps the get count of `getMultiple` at its start plus the keys read so far |
| `EventQueueFactory.CreateCacheEventQueueFull` | src/java/org/apache/commons/jcs/engine/CacheEventQueueFactory.java:69-107 | null or "single" (any case) gives the single-worker queue; "pooled" (any case) gives the pooled queue carrying the pool name; a loadable class name gives that class, initialized with the same listener, id, name, maxFailure, wait and pool name; an unloadable one falls back to the single-worker queue |
| `EventQueueFactory.CreateCacheEventQueue` | src/java/org/apache/commons/jcs/engine/CacheEventQueueFactory.java:51-55 | the short overload is the full one with maxFailure 10 and waitBeforeRetry 500 |
| `EventQueueFactory.BuiltInNamesExclusive` | src/java/org/apache/commons/jcs/engine/CacheEventQueueFactory.java:79-87 | no pool type matches both the single and the pooled name |
| `EventQueueFactory.CustomOnlyForOtherNames` | src/java/org/apache/commons/jcs/engine/CacheEventQueueFactory.java:88-106 | a custom queue is chosen only for a non-null pool type whose class loads and that spells neither built-in name in any case |
| `EventQueueFactory.BuiltInSelectionIgnoresCase` | src/java/org/apache/commons/jcs/engine/CacheEventQueueFactory.java:79-87 | pool types that differ only in letter case select the same queue when one of them names a built-in queue |
| `MemoryCache.ReportedName` | src/java/org/apache/commons/jcs/engine/memory/AbstractMemoryCache.java:271-277 | the settings' cache name if non-null, else the region name; never null when the region name is set |
| `MemoryCache.AbstractMemoryCache.constructor` | src/java/org/apache/commons/jcs/engine/memory/AbstractMemoryCache.java:60-79 | before initialize every reference field (name, settings, hub, status) is null, the map is empty and the chunk size is 0 |
| `MemoryCache.AbstractMemoryCache.Initialize` | src/java/org/apache/commons/jcs/engine/memory/AbstractMemoryCache.java:86-95 | afterwards the status is ALIVE, the chunk size is the settings' spool chunk size, the map is a fresh empty one (size 0), the name (possibly null), settings and hub come from the hub; the reported cache name is the settings' name, else the hub's, and is null exactly when both are null |
| `MemoryCache.AbstractMemoryCache.SetScheduledExecutorService` | src/java/org/apache/commons/jcs/engine/memory/AbstractMemoryCache.java:100-108 | with null settings (before initialize, or after null is set) a `NullPointerException` escapes and nothing is registered; otherwise, when the region uses the memory shrinker, one shrinker task over this cache (delay 0, period the shrinker interval) is registered, except that for an interval that is not positive the scheduler's `IllegalArgumentException` escapes and nothing is registered; without the shrinker nothing happens |
| `MemoryCache.AbstractMemoryCache.GetQuiet` | src/java/org/apache/commons/jcs/engine/memory/AbstractMemoryCache.java:175-196 | the stored element when the key is in the map, null otherwise; as a function it changes nothing |
| `MemoryCache.AbstractMemoryCache.GetMultiple` | src/java/org/apache/commons/jcs/engine/memory/AbstractMemoryCache.java:146-165 | the result's keys are exactly the requested keys that are in the map, each mapped to its stored element; a null request gives the empty map |
| `MemoryCache.AbstractMemoryCache.RemoveAll` | src/java/org/apache/commons/jcs/engine/memory/AbstractMemoryCache.java:219-223 | afterwards the map is empty and `GetSize()` (the map's entry count, lines 251-254) is 0; only the map changes |
| `MemoryCache.AbstractMemoryCache.GetSize` | src/java/org/apache/commons/jcs/engine/memory/AbstractMemoryCache.java:251-254 | the number of keys in the map; zero exactly when the map is empty |
| `MemoryCache.AbstractMemoryCache.GetStatus` | src/java/org/apache/commons/jcs/engine/memory/AbstractMemoryCache.java:261-264 | the status field as it stands: null before initialize |
| `MemoryCache.AbstractMemoryCache.Dispose` | src/java/org/apache/commons/jcs/engine/memory/AbstractMemoryCache.java:230-234 | the map and the status are unchanged |
| `MemoryCache.AbstractMemoryCache.GetCacheName` | src/java/org/apache/commons/jcs/engine/memory/AbstractMemoryCache.java:271-277 | the settings' cache name if non-null, else the region name captured at initialize |
| `MemoryCache.AbstractMemoryCache.GetCacheAttributes` | src/java/org/apache/commons/jcs/engine/memory/AbstractMemoryCache.java:320-323 | the settings field as it stands: null before initialize or after null is set, otherwise the settings stored |
| `MemoryCache.AbstractMemoryCache.SetCacheAttributes` | src/java/org/apache/commons/jcs/engine/memory/AbstractMemoryCache.java:330-333 | the settings read back are the ones set, null included; the cache counts as initialized exactly when they are non-null |
| `LateralAttributes.TransmissionTypeName` | src/java/org/apache/commons/jcs/auxiliary/lateral/LateralCacheAttributes.java:169-188 | a name exists exactly for UDP, HTTP, TCP and XMLRPC, and mapping it back gives the same code |
| `LateralAttributes.TransmissionTypeCode` | src/java/org/apache/commons/jcs/auxiliary/lateral/LateralCacheAttributes.java:203-222 | a code exists exactly for the names "UDP", "HTTP", "TCP", "XMLRPC" |
| `LateralAttributes.NameCodeNameRoundTrip` | src/java/org/apache/commons/jcs/auxiliary/lateral/LateralCacheAttributes.java:169-222 | name to code to name gives the name back |
| `LateralAttributes.Defaults` | src/java/org/apache/commons/jcs/auxiliary/lateral/LateralCacheAttributes.java:38-72 | name "UDP" and code UDP, multicast 228.5.6.7:6789, HTTP listener port 8080, put-only mode and receive on, no HTTP servers, empty HTTP server, zombie queue bound 1000 |
| `LateralAttributes.DefaultsConsistent` | src/java/org/apache/commons/jcs/auxiliary/lateral/LateralCacheAttributes.java:42-45 | the default code and name agree |
| `LateralAttributes.WithTransmissionType` | src/java/org/apache/commons/jcs/auxiliary/lateral/LateralCacheAttributes.java:169-188 | the code is stored; the name becomes the code's name for a known code and is unchanged for an unknown one; no other field changes |
| `LateralAttributes.WithTransmissionTypeName` | src/java/org/apache/commons/jcs/auxiliary/lateral/LateralCacheAttributes.java:203-222 | the name is stored; the code becomes the name's code for a known name and is unchanged for an unknown one; no other field changes |
| `LateralAttributes.KnownTransportMakesConsistent` | src/java/org/apache/commons/jcs/auxiliary/lateral/LateralCacheAttributes.java:169-222 | after either setter with a known transport, code and name agree, whatever the state before |
| `LateralAttributes.TypeThenNameRoundTrip` | src/java/org/apache/commons/jcs/auxiliary/lateral/LateralCacheAttributes.java:169-231 | setting a known code and then setting the name read back keeps that code and changes nothing |
| `LateralAttributes.NameThenTypeRoundTrip` | src/java/org/apache/commons/jcs/auxiliary/lateral/LateralCacheAttributes.java:194-222 | setting a known name and then setting the code read back keeps that name and changes nothing |
| `LateralAttributes.UnknownTypeLeavesNameStale` | src/java/org/apache/commons/jcs/auxiliary/lateral/LateralCacheAttributes.java:169-188 | an unknown code leaves the name as it was, and code and name then disagree |
| `LateralAttributes.LateralCacheAttributes.constructor` | src/java/org/apache/commons/jcs/auxiliary/lateral/LateralCacheAttributes.java:38-72 | a new object holds the defaults, with code and name in agreement |
| `LateralAttributes.LateralCacheAttributes.SetTransmissionType` | src/java/org/apache/commons/jcs/auxiliary/lateral/LateralCacheAttributes.java:169-197 | the new state is `WithTransmissionType` of the old, and the getter returns the code |
| `LateralAttributes.LateralCacheAttributes.SetTransmissionTypeName` | src/java/org/apache/commons/jcs/auxiliary/lateral/LateralCacheAttributes.java:203-231 | the new state is `WithTransmissionTypeName` of the old, and the getter returns the name |
| `LateralAttributes.LateralCacheAttributes.SetHttpServer` | src/java/org/apache/commons/jcs/auxiliary/lateral/LateralCacheAttributes.java:79-91 | the getter returns the value; no other field changes |
| `LateralAttributes.LateralCacheAttributes.SetHttpServers` | src/java/org/apache/commons/jcs/auxiliary/lateral/LateralCacheAttributes.java:97-109 | the getter returns the value; no other field changes |
| `LateralAttributes.LateralCacheAttributes.SetHttpListenerPort` | src/java/org/apache/commons/jcs/auxiliary/lateral/LateralCacheAttributes.java:115-127 | the getter returns the value; no other field changes |
| `LateralAttributes.LateralCacheAttributes.SetUdpMulticastAddr` | src/java/org/apache/commons/jcs/auxiliary/lateral/LateralCacheAttributes.java:133-145 | the getter returns the value; no other field changes |
| `LateralAttributes.LateralCacheAttributes.SetUdpMulticastPort` | src/java/org/apache/commons/jcs/auxiliary/lateral/LateralCacheAttributes.java:151-163 | the getter returns the value; no other field changes |
| `LateralAttributes.LateralCacheAttributes.SetPutOnlyMode` | src/java/org/apache/commons/jcs/auxiliary/lateral/LateralCacheAttributes.java:239-250 | the getter returns the value; no other field changes |
| `LateralAttributes.LateralCacheAttributes.SetReceive` | src/java/org/apache/commons/jcs/auxiliary/lateral/LateralCacheAttributes.java:272-283 | the getter returns the value; no other field changes |
| `LateralAttributes.LateralCacheAttributes.SetZombieQueueMaxSize` | src/java/org/apache/commons/jcs/auxiliary/lateral/LateralCacheAttributes.java:291-305 | the getter returns the value; no other field changes |
| `LateralNoWait.QueueFor` | src/java/org/apache/commons/jcs/auxiliary/lateral/LateralCacheNoWait.java:91-94 | the wrapper's queue comes from the factory's short form: it listens on the lateral cache and has its id and name, 10 failures and a 500 ms wait |
| `LateralNoWait.CombinedStatus` | src/java/org/apache/commons/jcs/auxiliary/lateral/LateralCacheNoWait.java:320-323 | ERROR exactly when the queue is not working or the cache is in ERROR; the cache's status whenever the queue works |
| `LateralNoWait.GuardedRead` | src/java/org/apache/commons/jcs/auxiliary/lateral/LateralCacheNoWait.java:133-161 | in ERROR, a miss with no transport call; otherwise one call, or exactly two after an unmarshal failure; the queue is stopped exactly on an I/O failure of the first call or of the retry; the answer is returned unless the queue is stopped |
| `LateralNoWait.LateralCacheNoWait.constructor` | src/java/org/apache/commons/jcs/auxiliary/lateral/LateralCacheNoWait.java:82-106 | counters 0, a fresh empty queue from the factory, destroyed exactly when the cache is in ERROR, so the status starts as ERROR then, and is otherwise the cache's own |
| `LateralNoWait.LateralCacheNoWait.GetStatus` | src/java/org/apache/commons/jcs/auxiliary/lateral/LateralCacheNoWait.java:320-323 | ERROR exactly when the queue is not working or the cache is in ERROR; otherwise the cache's status |
| `LateralNoWait.LateralCacheNoWait.Update` | src/java/org/apache/commons/jcs/auxiliary/lateral/LateralCacheNoWait.java:112-125 | the put count goes up by one; a put event is appended when the queue accepts it; otherwise the queue is destroyed and nothing escapes |
| `LateralNoWait.LateralCacheNoWait.Get` | src/java/org/apache/commons/jcs/auxiliary/lateral/LateralCacheNoWait.java:133-161 | the get count goes up by one (also in ERROR); the result, the number of transport calls and whether the queue stops are those of `GuardedRead` for the status before the call; no event is added |
| `LateralNoWait.LateralCacheNoWait.GetMultiple` | src/java/org/apache/commons/jcs/auxiliary/lateral/LateralCacheNoWait.java:170-188 | the result's keys are requested keys that the cache holds, each mapped to the cache's element, and never a key whose own read stopped the queue (its `get` returned null); a null request gives the empty map; the get count goes up by the number of keys; the queue is never revived; in ERROR nothing is read, the result is empty and the queue is untouched; otherwise the queue ends stopped exactly when some requested key's read stops it (whatever the iteration order), and when none does the result holds every requested key the cache holds, the status is unchanged and exactly one transport call was made per key plus one more per key whose first call failed to unmarshal; in every case at most that many calls are made |
| `LateralNoWait.ReadAllOutcome` | src/java/org/apache/commons/jcs/auxiliary/lateral/LateralCacheNoWait.java:170-188 | reading keys one after another through `get`: the queue is never revived; starting in ERROR nothing happens; otherwise the queue ends working exactly when no key's read stops it, and then every key read that the cache holds is collected and the calls are one per key plus one per unmarshal failure; every collected element is the cache's own for a key read whose read did not stop the queue, and the calls never exceed that count |
| `LateralNoWait.ReadKeysOutcome` | src/java/org/apache/commons/jcs/auxiliary/lateral/LateralCacheNoWait.java:174-185 | the outcome of `ReadAllOutcome` for a read order that visits every requested key once: it depends only on the set of keys, not on the order the set's iterator chooses |
| `LateralNoWait.LateralCacheNoWait.GetMatching` | src/java/org/apache/commons/jcs/auxiliary/lateral/LateralCacheNoWait.java:196-224 | like `Get`, with the matching entries as the answer and the empty map as the miss |
| `LateralNoWait.LateralCacheNoWait.GetKeySet` | src/java/org/apache/commons/jcs/auxiliary/lateral/LateralCacheNoWait.java:231-243 | the cache's keys; an I/O failure destroys the queue and gives the empty set |
| `LateralNoWait.LateralCacheNoWait.Remove` | src/java/org/apache/commons/jcs/auxiliary/lateral/LateralCacheNoWait.java:251-264 | always false; the remove count goes up by one; a remove event is appended when accepted, else the queue is destroyed and nothing escapes |
| `LateralNoWait.LateralCacheNoWait.RemoveAll` | src/java/org/apache/commons/jcs/auxiliary/lateral/LateralCacheNoWait.java:267-278 | a remove-all event is appended when accepted, else the queue is destroyed |
| `LateralNoWait.LateralCacheNoWait.Dispose` | src/java/org/apache/commons/jcs/auxiliary/lateral/LateralCacheNoWait.java:281-292 | a dispose event is appended when accepted, else the queue is destroyed |
| `LateralNoWait.LateralCacheNoWait.ResetEventQ` | src/java/org/apache/commons/jcs/auxiliary/lateral/LateralCacheNoWait.java:350-360 | the old queue ends up destroyed (it is destroyed only if it was still working) and keeps its events; a fresh, empty, working queue from the factory is installed, so the status is the cache's own |
| `LateralNoWait.LateralCacheNoWait.FixCache` | src/java/org/apache/commons/jcs/auxiliary/lateral/LateralCacheNoWait.java:341-345 | the cache gets the new service handle, then the queue is reset as in `ResetEventQ` |
| `FileDiskCacheRegistry.Registered` | src/java/org/apache/commons/jcs/auxiliary/disk/file/FileDiskCacheManager.java:76-94 | get-or-create on the table: an existing entry wins and the table is unchanged; otherwise the new cache is added and the table grows by exactly one; the name maps to the result and other names keep their entries |
| `FileDiskCacheRegistry.RegisteredIdempotent` | src/java/org/apache/commons/jcs/auxiliary/disk/file/FileDiskCacheManager.java:68-97 | a second get-or-create of the same name changes nothing and finds the first one's cache |
| `FileDiskCacheRegistry.FileDiskCacheManager.constructor` | src/java/org/apache/commons/jcs/auxiliary/disk/file/FileDiskCacheManager.java:38-44 | an empty table and the given default settings |
| `FileDiskCacheRegistry.FileDiskCacheManager.GetCache` | src/java/org/apache/commons/jcs/auxiliary/disk/file/FileDiskCacheManager.java:68-97 | returns the registered cache, leaving the table unchanged, or a new cache with the given settings registered under the name; afterwards the table is `Registered` of the old one, and the name maps to the result |
| `FileDiskCacheRegistry.FileDiskCacheManager.GetCacheByName` | src/java/org/apache/commons/jcs/auxiliary/disk/file/FileDiskCacheManager.java:52-59 | as `GetCache`, with a copy of the default settings carrying the given name |

## Left out

- Worker threads, delivery to the listener, retry timing and the pooled thread
  pool of `CacheEventQueue` / `PooledCacheEventQueue`. Their code is not part of
  this model. A queue is only a working flag and its accepted events, and
  `destroy` keeps the events it had accepted.
- Concurrency: the `synchronized` blocks and the thread-safety of the maps. Every
  operation is modelled as one sequential step.
- The lateral cache's own code is not part of this model. `LateralCache` is a
  stand-in with a store, a status field, queue settings and a service handle.
  Its `fixCache` only installs the handle: zombie event propagation, and the
  status change that may follow, are not modelled.
- `LateralCacheInfo.listenerId` is not part of this model. The listener id is
  taken as a value held by the lateral cache. The queue's listener is the lateral
  cache itself rather than a `CacheAdaptor` wrapping it.
- Loading a custom queue class by name (`OptionConverter.instantiateByClassName`)
  is the `instantiable` parameter.
- Key patterns are the `matches` parameter. The regular-expression key matcher
  is not part of this model.
- `EventQueueFactory.EqualsIgnoreCase`: folds only ASCII letters, where Java's
  `equalsIgnoreCase` folds all of Unicode.
- `LateralCacheNoWait.getSize`, `getCacheType`, `getCacheName` and
  `getAuxiliaryCacheAttributes`: these only delegate to the lateral cache.
  `getStatistics`, `getStats`, `toString` and `getEventLoggingExtraInfo` are
  report formatting.
- `LateralCacheAttributes.copy` relies on Java `clone()`. `toString` is
  formatting.
- `LateralAttributes.LateralCacheAttributes.SetTransmissionTypeName`: takes a
  non-null name. With null, the source stores null and then throws
  `NullPointerException`.
- `AbstractMemoryCache.waterfal` delegates to the region hub's spool-to-disk,
  which is not part of this model. `getIterator` and `dumpMap` are iteration and
  debug plumbing. `getStatistics` is reporting. `getCompositeCache` and the
  `elementAttributes` field are unused by the modelled operations.
- The abstract `get`, `update`, `remove`, `getKeySet` and `createMap` belong to
  the concrete memory caches.
- The JDK's `ScheduledExecutorService` is reduced to the tasks registered with
  it and its refusal of a period that is not positive (`Scheduler`); running
  the shrinker is not modelled. The `Scheduler` parameter is never null, so the
  `NullPointerException` Java throws at AbstractMemoryCache.java:104 for a null
  executor on a region that uses the shrinker is not modelled.
- `MemoryCache.AbstractMemoryCache.GetMultiple`: looks keys up with the map
  lookup (`GetQuiet`). It does not model the recency bookkeeping that a
  concrete cache's `get` may do.
- The model's memory-cache map exists (empty) before `initialize`; Java's field
  is null until then.
- `MemoryCache.AbstractMemoryCache.GetSize`: does not cap the count at
  `Integer.MAX_VALUE` as Java's `Map.size()` does for larger maps.
- `MemoryCache.AbstractMemoryCache.GetCacheName`: requires non-null settings
  (after initialize). Java throws `NullPointerException` at line 273 when the
  settings are null.
- `MemoryCache.AbstractMemoryCache.Initialize`: takes a hub whose settings are
  non-null. With null settings Java stores the fields and then throws
  `NullPointerException` at line 93; the hub's settings are not optional in
  this model.
- `FileDiskCacheRegistry.FileDiskCacheManager.GetCache`: requires a non-null
  cache name. A `Hashtable` rejects a null key with `NullPointerException`.
  Setting the element serializer and the event logger on a new cache is not
  modelled.
- The counters of the no-wait wrapper are modelled with 32-bit wrap-around.
  Their formatting for statistics is left out.
