/**
 * The no-wait wrapper of a lateral auxiliary
 * (auxiliary/lateral/LateralCacheNoWait.java): writes become events on the
 * wrapper's queue, reads call the lateral cache directly, and a failure of either
 * stops the queue, which turns the wrapper's status to ERROR until the queue is
 * reset.
 */
module LateralNoWait {
  import opened Wrappers
  import opened CacheTypes
  import opened EventQueueFactory
  import opened CacheEventQueue

  /** How one call to the lateral transport goes: it answers, it fails to unmarshal
      the answer (the retryable kind of I/O failure), or it fails with another I/O
      error. */
  datatype ReadFault = Clean | UnmarshalFault | IoFault

  /** The answer of one transport call. */
  datatype Attempt<T> = Answered(value: T) | Unmarshal | IoError

  /** A lateral service handle, as installed by a reconnect. */
  datatype ServiceHandle = ServiceHandle(id: nat)

  /**
   * The lateral cache behind the wrapper (its code is not part of this model): the
   * peer's contents, the cache's own status, its settings for the event queue and
   * the service handle. `calls` counts the reads (`get` and `getMatching`) that
   * reached the transport; `getKeySet` is not counted.
   */
  class LateralCache<K(==), V> {
    const cacheName: string
    const listenerId: int
    const eventQueuePoolName: Option<string>
    const eventQueueType: Option<string>
    var store: map<K, CacheElement<K, V>>
    var status: CacheStatus
    var service: ServiceHandle
    ghost var calls: nat

    constructor (cacheName: string, listenerId: int, eventQueuePoolName: Option<string>,
                 eventQueueType: Option<string>, status: CacheStatus, service: ServiceHandle)
      ensures this.cacheName == cacheName && this.listenerId == listenerId
      ensures this.eventQueuePoolName == eventQueuePoolName && this.eventQueueType == eventQueueType
      ensures this.status == status && this.service == service
      ensures store == map[] && calls == 0
    {
      this.cacheName := cacheName;
      this.listenerId := listenerId;
      this.eventQueuePoolName := eventQueuePoolName;
      this.eventQueueType := eventQueueType;
      this.status := status;
      this.service := service;
      store := map[];
      calls := 0;
    }

    function Lookup(key: K): Option<CacheElement<K, V>>
      reads this
    {
      if key in store then Some(store[key]) else None
    }

    /** The entries whose keys the pattern matches (`matches` stands for the key matcher). */
    function Matching(matches: K -> bool): map<K, CacheElement<K, V>>
      reads this
    {
      map k | k in store && matches(k) :: store[k]
    }

    /** One remote get; `fault` says how the transport call goes. */
    method Get(key: K, fault: ReadFault) returns (a: Attempt<Option<CacheElement<K, V>>>)
      modifies this`calls
      ensures calls == old(calls) + 1
      ensures a == match fault
                   case Clean => Answered(Lookup(key))
                   case UnmarshalFault => Unmarshal
                   case IoFault => IoError
    {
      calls := calls + 1;
      match fault
      case Clean => a := Answered(Lookup(key));
      case UnmarshalFault => a := Unmarshal;
      case IoFault => a := IoError;
    }

    /** One remote pattern get. */
    method GetMatching(matches: K -> bool, fault: ReadFault) returns (a: Attempt<map<K, CacheElement<K, V>>>)
      modifies this`calls
      ensures calls == old(calls) + 1
      ensures a == match fault
                   case Clean => Answered(Matching(matches))
                   case UnmarshalFault => Unmarshal
                   case IoFault => IoError
    {
      calls := calls + 1;
      match fault
      case Clean => a := Answered(Matching(matches));
      case UnmarshalFault => a := Unmarshal;
      case IoFault => a := IoError;
    }

    /** Installs a new service handle. */
    method FixCache(handle: ServiceHandle)
      modifies this`service
      ensures service == handle
    {
      service := handle;
    }
  }

  /** The queue the wrapper builds for a lateral cache: the factory's short form,
      listening on that cache with its id, name and queue settings. */
  function QueueFor<K(==), V>(cache: LateralCache<K, V>, instantiable: string -> bool): (q: QueueConfig<LateralCache<K, V>>)
    ensures q.listener == cache && q.cacheName == cache.cacheName && q.listenerId == cache.listenerId
    ensures q.maxFailure == DEFAULT_MAX_FAILURE && q.waitBeforeRetry == DEFAULT_WAIT_BEFORE_RETRY
  {
    CreateCacheEventQueue(cache, cache.listenerId, cache.cacheName,
                          cache.eventQueuePoolName, cache.eventQueueType, instantiable)
  }

  /** The status the wrapper reports for a queue liveness and a lateral status. */
  function CombinedStatus(queueWorking: bool, cacheStatus: CacheStatus): (s: CacheStatus)
    ensures s == ERROR <==> !queueWorking || cacheStatus == ERROR
    ensures queueWorking ==> s == cacheStatus
  {
    if queueWorking then cacheStatus else ERROR
  }

  /** Whether a read whose transport calls go `first` and then (if retried) `retry`
      stops the queue: an I/O failure of the first call, or any failure of the
      retry that follows an unmarshal failure. */
  predicate StopsQueue(first: ReadFault, retry: ReadFault) {
    first == IoFault || (first == UnmarshalFault && retry != Clean)
  }

  /** How the transport call for `key` goes, when `faults` lists the keys whose call
      fails and how; the calls for the other keys answer. */
  function FaultOf<K>(faults: map<K, ReadFault>, key: K): ReadFault {
    if key in faults then faults[key] else Clean
  }

  /** Whether reading some key of `keys` stops the queue. */
  predicate SomeReadStops<K>(keys: set<K>, first: map<K, ReadFault>, retry: map<K, ReadFault>) {
    exists k :: k in keys && StopsQueue(FaultOf(first, k), FaultOf(retry, k))
  }

  /** How many keys of `keys` have a first transport call that fails to unmarshal,
      so that reading them takes a second call. */
  function Unmarshals<K>(keys: set<K>, first: map<K, ReadFault>): nat {
    |set k | k in keys && FaultOf(first, k) == UnmarshalFault|
  }

  /** What one synchronous read does: the value it returns, how many transport
      calls it makes and whether it stops the queue. */
  datatype ReadPlan<T> = ReadPlan(result: T, attempts: nat, stopsQueue: bool)

  /** A read through the wrapper whose status is `status`, where the transport
      would answer `answer` and a miss is `miss`. In ERROR nothing is called.
      Otherwise an unmarshal failure is retried exactly once, and an I/O failure of
      the first call or of the retry stops the queue and gives the miss. */
  function GuardedRead<T>(status: CacheStatus, answer: T, miss: T, first: ReadFault, retry: ReadFault): (p: ReadPlan<T>)
    ensures status == ERROR ==> p == ReadPlan(miss, 0, false)
    ensures status != ERROR ==> p.attempts == (if first == UnmarshalFault then 2 else 1)
    ensures status != ERROR ==>
              (p.stopsQueue <==> StopsQueue(first, retry))
    ensures p.result == (if status != ERROR && !p.stopsQueue then answer else miss)
  {
    if status == ERROR then ReadPlan(miss, 0, false)
    else match first
      case Clean => ReadPlan(answer, 1, false)
      case UnmarshalFault => if retry == Clean then ReadPlan(answer, 2, false) else ReadPlan(miss, 2, true)
      case IoFault => ReadPlan(miss, 1, true)
  }

  /** What `getMultiple` reads against: the lateral cache's status and contents,
      and how each key's transport calls go. */
  datatype ReadEnv<K, V> = ReadEnv(
    status: CacheStatus,
    store: map<K, CacheElement<K, V>>,
    first: map<K, ReadFault>,
    retry: map<K, ReadFault>)

  /** Where `getMultiple` stands after some keys: the elements collected, whether
      the queue still works, and the transport calls made so far. */
  datatype Tally<K, V> = Tally(elements: map<K, CacheElement<K, V>>, working: bool, calls: nat)

  /** One more key read through the wrapper: a `get` under the status the queue
      leaves, and the element kept when it is found. */
  function ReadStep<K, V>(t: Tally<K, V>, key: K, env: ReadEnv<K, V>): Tally<K, V> {
    var answer := if key in env.store then Some(env.store[key]) else None;
    var p := GuardedRead(CombinedStatus(t.working, env.status), answer, None,
                         FaultOf(env.first, key), FaultOf(env.retry, key));
    Tally(if p.result.Some? then t.elements[key := p.result.value] else t.elements,
          t.working && !p.stopsQueue,
          t.calls + p.attempts)
  }

  /** The keys of `order` read one after another, starting from an empty result,
      a queue whose liveness is `working` and `calls` calls made. */
  function ReadAll<K, V>(order: seq<K>, working: bool, calls: nat, env: ReadEnv<K, V>): Tally<K, V>
    decreases |order|
  {
    if order == [] then Tally(map[], working, calls)
    else ReadStep(ReadAll(order[..|order| - 1], working, calls, env), order[|order| - 1], env)
  }

  /** How many keys of `order` have a first call that fails to unmarshal. */
  function UnmarshalCount<K>(order: seq<K>, first: map<K, ReadFault>): nat
    decreases |order|
  {
    if order == [] then 0
    else UnmarshalCount(order[..|order| - 1], first)
         + (if FaultOf(first, order[|order| - 1]) == UnmarshalFault then 1 else 0)
  }

  /** Whether the read of some key of `order` stops the queue. */
  predicate SomeStepStops<K>(order: seq<K>, first: map<K, ReadFault>, retry: map<K, ReadFault>) {
    exists i :: 0 <= i < |order| && StopsQueue(FaultOf(first, order[i]), FaultOf(retry, order[i]))
  }

  /** What reading keys in any order leaves behind. The queue is never revived.
      Starting in ERROR nothing happens. Otherwise the queue ends working exactly
      when no read stops it, and then every key read that the cache holds is
      collected and every key cost one call, two after an unmarshal failure. In
      every case each collected element is the cache's own for a key read, and
      no key costs more than those calls. */
  lemma {:induction false} ReadAllOutcome<K, V>(order: seq<K>, working: bool, calls: nat, env: ReadEnv<K, V>)
    ensures var r := ReadAll(order, working, calls, env);
            && (r.working ==> working)
            && (forall k :: k in r.elements ==> k in order && k in env.store && r.elements[k] == env.store[k])
            && (forall k :: k in r.elements ==> !StopsQueue(FaultOf(env.first, k), FaultOf(env.retry, k)))
            && r.calls <= calls + |order| + UnmarshalCount(order, env.first)
            && (CombinedStatus(working, env.status) == ERROR ==> r == Tally(map[], working, calls))
            && (CombinedStatus(working, env.status) != ERROR ==>
                  (r.working <==> !SomeStepStops(order, env.first, env.retry)))
            && (CombinedStatus(working, env.status) != ERROR && r.working ==>
                  (forall k :: k in order && k in env.store ==> k in r.elements)
                  && r.calls == calls + |order| + UnmarshalCount(order, env.first))
    decreases |order|
  {
    if order != [] {
      var prefix, key := order[..|order| - 1], order[|order| - 1];
      assert order == prefix + [key];
      ReadAllOutcome(prefix, working, calls, env);
      var t := ReadAll(prefix, working, calls, env);
      if CombinedStatus(working, env.status) != ERROR {
        if !t.working {
          var i :| 0 <= i < |prefix| && StopsQueue(FaultOf(env.first, prefix[i]), FaultOf(env.retry, prefix[i]));
          assert order[i] == prefix[i];
        }
      }
    }
  }

  /** The keys of a sequence. */
  function KeysOf<K>(order: seq<K>): set<K> {
    set k | k in order
  }

  /** Adding a key that is not yet there adds one to the count when its first call
      fails to unmarshal. */
  lemma {:induction false} UnmarshalsAdd<K>(keys: set<K>, key: K, first: map<K, ReadFault>)
    requires key !in keys
    ensures Unmarshals(keys + {key}, first)
         == Unmarshals(keys, first) + (if FaultOf(first, key) == UnmarshalFault then 1 else 0)
  {
    var before := set k | k in keys && FaultOf(first, k) == UnmarshalFault;
    var after := set k | k in keys + {key} && FaultOf(first, k) == UnmarshalFault;
    if FaultOf(first, key) == UnmarshalFault {
      assert after == before + {key};
    } else {
      assert after == before;
    }
  }

  /** The last key of a sequence without repeats is new to the keys before it. */
  lemma LastIsNew<K>(order: seq<K>)
    requires order != []
    requires forall i, j :: 0 <= i < j < |order| ==> order[i] != order[j]
    ensures order[|order| - 1] !in KeysOf(order[..|order| - 1])
    ensures KeysOf(order) == KeysOf(order[..|order| - 1]) + {order[|order| - 1]}
  {
    var prefix := order[..|order| - 1];
    assert forall i :: 0 <= i < |prefix| ==> prefix[i] == order[i] != order[|order| - 1];
    assert order == prefix + [order[|order| - 1]];
  }

  /** A sequence without repeats has as many keys as elements, and counts the
      unmarshal failures of its keys. */
  lemma {:induction false} UnmarshalCountOfDistinct<K>(order: seq<K>, first: map<K, ReadFault>)
    requires forall i, j :: 0 <= i < j < |order| ==> order[i] != order[j]
    ensures UnmarshalCount(order, first) == Unmarshals(KeysOf(order), first)
    ensures |KeysOf(order)| == |order|
    decreases |order|
  {
    if order == [] {
      assert KeysOf(order) == {};
    } else {
      var prefix, key := order[..|order| - 1], order[|order| - 1];
      UnmarshalCountOfDistinct(prefix, first);
      LastIsNew(order);
      UnmarshalsAdd(KeysOf(prefix), key, first);
    }
  }

  /** Reading every key of `keys` once, in any order, as `getMultiple` does: the
      outcome of `ReadAllOutcome` stated for the requested set. */
  lemma ReadKeysOutcome<K, V>(keys: set<K>, order: seq<K>, working: bool, calls: nat, env: ReadEnv<K, V>)
    requires forall i :: 0 <= i < |order| ==> order[i] in keys
    requires forall k :: k in keys ==> k in order
    requires forall i, j :: 0 <= i < j < |order| ==> order[i] != order[j]
    ensures |order| == |keys|
    ensures var r := ReadAll(order, working, calls, env);
            && (r.working ==> working)
            && r.elements.Keys <= keys
            && (forall k :: k in r.elements ==> k in env.store && r.elements[k] == env.store[k])
            && (forall k :: k in r.elements ==> !StopsQueue(FaultOf(env.first, k), FaultOf(env.retry, k)))
            && r.calls <= calls + |keys| + Unmarshals(keys, env.first)
            && (CombinedStatus(working, env.status) == ERROR ==> r == Tally(map[], working, calls))
            && (CombinedStatus(working, env.status) != ERROR ==>
                  (r.working <==> !SomeReadStops(keys, env.first, env.retry)))
            && (CombinedStatus(working, env.status) != ERROR && !SomeReadStops(keys, env.first, env.retry) ==>
                  r.elements.Keys == keys * env.store.Keys
                  && r.calls == calls + |keys| + Unmarshals(keys, env.first))
  {
    ReadAllOutcome(order, working, calls, env);
    UnmarshalCountOfDistinct(order, env.first);
    assert KeysOf(order) == keys;
    assert SomeStepStops(order, env.first, env.retry) <==> SomeReadStops(keys, env.first, env.retry) by {
      if SomeReadStops(keys, env.first, env.retry) {
        var k :| k in keys && StopsQueue(FaultOf(env.first, k), FaultOf(env.retry, k));
        var i :| 0 <= i < |order| && order[i] == k;
      }
    }
  }

  class LateralCacheNoWait<K(==), V> {
    const cache: LateralCache<K, V>
    var eventQueue: EventQueue<LateralCache<K, V>, K, V>
    var getCount: int
    var removeCount: int
    var putCount: int

    /** The counters hold 32-bit values. */
    predicate Valid()
      reads this
    {
      IsInt32(getCount) && IsInt32(removeCount) && IsInt32(putCount)
    }

    /** Wraps a lateral cache with a new queue built by the factory; when the cache
        is already in error the queue is destroyed at once, so the wrapper starts
        in ERROR. In every case the wrapper starts with the cache's own status. */
    constructor (cache: LateralCache<K, V>, instantiable: string -> bool)
      ensures Valid() && this.cache == cache
      ensures getCount == 0 && removeCount == 0 && putCount == 0
      ensures fresh(eventQueue) && eventQueue.config == QueueFor(cache, instantiable)
      ensures eventQueue.events == []
      ensures eventQueue.working <==> cache.status != ERROR
      ensures cache.status == ERROR ==> GetStatus() == ERROR
      ensures GetStatus() == cache.status
    {
      this.cache := cache;
      var q := new EventQueue(QueueFor(cache, instantiable));
      if cache.status == ERROR {
        q.Destroy();
      }
      eventQueue := q;
      getCount, removeCount, putCount := 0, 0, 0;
    }

    /** ERROR when the queue has stopped, else the lateral cache's status. */
    function GetStatus(): (s: CacheStatus)
      reads this, eventQueue, cache
      ensures s == CombinedStatus(eventQueue.working, cache.status)
      ensures s == ERROR <==> !eventQueue.working || cache.status == ERROR
    {
      CombinedStatus(eventQueue.working, cache.status)
    }

    /** Queues a put. A failed enqueue stops the queue instead of reaching the caller. */
    method Update(ce: CacheElement<K, V>, ioFault: bool)
      requires Valid()
      modifies this`putCount, eventQueue
      ensures Valid() && putCount == Inc32(old(putCount))
      ensures eventQueue == old(eventQueue)
      ensures old(eventQueue.working) && !ioFault ==>
                eventQueue.working && eventQueue.events == old(eventQueue.events) + [PutEvent(ce)]
      ensures !(old(eventQueue.working) && !ioFault) ==>
                !eventQueue.working && eventQueue.events == old(eventQueue.events)
    {
      putCount := Inc32(putCount);
      var accepted := eventQueue.Add(PutEvent(ce), ioFault);
      if !accepted {
        eventQueue.Destroy();
      }
    }

    /** Reads one key synchronously. In ERROR it misses without calling the cache.
        Otherwise it calls the cache; an unmarshal failure is retried exactly once,
        and an I/O failure of the first call or of the retry stops the queue and
        misses. The events and the cache's contents never change. */
    method Get(key: K, first: ReadFault, retry: ReadFault) returns (r: Option<CacheElement<K, V>>)
      requires Valid()
      modifies this`getCount, eventQueue, cache`calls
      ensures Valid() && getCount == Inc32(old(getCount))
      ensures eventQueue == old(eventQueue) && eventQueue.events == old(eventQueue.events)
      ensures var p := GuardedRead(old(GetStatus()), old(cache.Lookup(key)), None, first, retry);
              r == p.result && cache.calls == old(cache.calls) + p.attempts
              && eventQueue.working == (old(eventQueue.working) && !p.stopsQueue)
    {
      getCount := Inc32(getCount);
      r := None;
      if GetStatus() != ERROR {
        var a := cache.Get(key, first);
        match a
        case Answered(v) =>
          r := v;
        case Unmarshal =>
          var b := cache.Get(key, retry);
          if b.Answered? {
            r := b.value;
          } else {
            eventQueue.Destroy();
          }
        case IoError =>
          eventQueue.Destroy();
      }
    }

    /** Reads several keys, one `get` each, keeping only the keys found; a null or
        empty request gives an empty map. `first` and `retry` list the keys whose
        first call, or retry, fails and how (see `FaultOf`). Every value returned
        is the lateral cache's element for that key. The queue is never revived.
        In ERROR nothing is read. Otherwise the queue ends stopped exactly when
        some key's read stops it, whatever the order the keys are read in; when
        none does, every requested key the cache holds is returned and every key
        costs one transport call, two after an unmarshal failure. No key ever costs
        more than that. */
    method GetMultiple(keys: Option<set<K>>, first: map<K, ReadFault>, retry: map<K, ReadFault>)
      returns (elements: map<K, CacheElement<K, V>>)
      requires Valid()
      modifies this`getCount, eventQueue, cache`calls
      ensures Valid() && eventQueue == old(eventQueue) && eventQueue.events == old(eventQueue.events)
      ensures keys.None? ==> elements == map[] && getCount == old(getCount) && cache.calls == old(cache.calls)
      ensures keys.Some? ==> elements.Keys <= keys.value && getCount == Wrap32(old(getCount) + |keys.value|)
      ensures forall k :: k in elements ==> k in cache.store && elements[k] == cache.store[k]
      ensures forall k :: k in elements ==> !StopsQueue(FaultOf(first, k), FaultOf(retry, k))
      ensures eventQueue.working ==> old(eventQueue.working)
      ensures old(GetStatus()) == ERROR ==>
                elements == map[] && cache.calls == old(cache.calls) && eventQueue.working == old(eventQueue.working)
      ensures keys.None? || !SomeReadStops(keys.value, first, retry) ==>
                eventQueue.working == old(eventQueue.working)
      ensures old(GetStatus()) != ERROR && keys.Some? && SomeReadStops(keys.value, first, retry) ==>
                !eventQueue.working
      ensures old(GetStatus()) != ERROR && keys.Some? && !SomeReadStops(keys.value, first, retry) ==>
                elements.Keys == keys.value * cache.store.Keys && GetStatus() == old(GetStatus())
                && cache.calls == old(cache.calls) + |keys.value| + Unmarshals(keys.value, first)
      ensures keys.Some? ==> cache.calls <= old(cache.calls) + |keys.value| + Unmarshals(keys.value, first)
    {
      elements := map[];
      if keys.Some? && keys.value != {} {
        ghost var env := ReadEnv(cache.status, cache.store, first, retry);
        ghost var order;
        elements, order := ReadEach(keys.value, first, retry);
        ReadKeysOutcome(keys.value, order, old(eventQueue.working), old(cache.calls), env);
      }
    }

    /** One turn of the loop of `getMultiple`: `key` read through `Get`, and the
        element kept when one is found. */
    method Collect(elements: map<K, CacheElement<K, V>>, key: K, first: map<K, ReadFault>, retry: map<K, ReadFault>)
      returns (collected: map<K, CacheElement<K, V>>)
      requires Valid()
      modifies this`getCount, eventQueue, cache`calls
      ensures Valid() && getCount == Inc32(old(getCount))
      ensures eventQueue == old(eventQueue) && eventQueue.events == old(eventQueue.events)
      ensures Tally(collected, eventQueue.working, cache.calls)
           == ReadStep(Tally(elements, old(eventQueue.working), old(cache.calls)), key,
                       ReadEnv(cache.status, cache.store, first, retry))
    {
      var element := Get(key, FaultOf(first, key), FaultOf(retry, key));
      collected := if element.Some? then elements[key := element.value] else elements;
    }

    /** The loop of `getMultiple`: every key of `keys` read once through `Get`, in
        an order the set chooses; `order` records it. */
    method ReadEach(keys: set<K>, first: map<K, ReadFault>, retry: map<K, ReadFault>)
      returns (elements: map<K, CacheElement<K, V>>, ghost order: seq<K>)
      requires Valid()
      modifies this`getCount, eventQueue, cache`calls
      ensures Valid() && eventQueue == old(eventQueue) && eventQueue.events == old(eventQueue.events)
      ensures getCount == Wrap32(old(getCount) + |order|)
      ensures forall i :: 0 <= i < |order| ==> order[i] in keys
      ensures forall k :: k in keys ==> k in order
      ensures forall i, j :: 0 <= i < j < |order| ==> order[i] != order[j]
      ensures Tally(elements, eventQueue.working, cache.calls)
           == ReadAll(order, old(eventQueue.working), old(cache.calls),
                      ReadEnv(cache.status, cache.store, first, retry))
    {
      elements := map[];
      ghost var start := getCount;
      ghost var env := ReadEnv(cache.status, cache.store, first, retry);
      order := [];
      var remaining := keys;
      while remaining != {}
        invariant Valid() && remaining <= keys
        invariant eventQueue == old(eventQueue) && eventQueue.events == old(eventQueue.events)
        invariant env == ReadEnv(cache.status, cache.store, first, retry)
        invariant getCount == Wrap32(start + |order|)
        invariant forall i :: 0 <= i < |order| ==> order[i] in keys && order[i] !in remaining
        invariant forall k :: k in keys && k !in remaining ==> k in order
        invariant forall i, j :: 0 <= i < j < |order| ==> order[i] != order[j]
        invariant Tally(elements, eventQueue.working, cache.calls)
               == ReadAll(order, old(eventQueue.working), old(cache.calls), env)
        decreases remaining
      {
        var key :| key in remaining;
        Inc32OfWrap(start, |order|);
        elements := Collect(elements, key, first, retry);
        assert (order + [key])[..|order|] == order;
        order := order + [key];
        remaining := remaining - {key};
      }
    }

    /** Reads the entries matching a pattern (`matches` stands for the pattern), with
        the same error handling as `Get`; a miss is the empty map. */
    method GetMatching(matches: K -> bool, first: ReadFault, retry: ReadFault)
      returns (r: map<K, CacheElement<K, V>>)
      requires Valid()
      modifies this`getCount, eventQueue, cache`calls
      ensures Valid() && getCount == Inc32(old(getCount))
      ensures eventQueue == old(eventQueue) && eventQueue.events == old(eventQueue.events)
      ensures var p := GuardedRead(old(GetStatus()), old(cache.Matching(matches)), map[], first, retry);
              r == p.result && cache.calls == old(cache.calls) + p.attempts
              && eventQueue.working == (old(eventQueue.working) && !p.stopsQueue)
    {
      getCount := Inc32(getCount);
      r := map[];
      if GetStatus() != ERROR {
        var a := cache.GetMatching(matches, first);
        match a
        case Answered(v) =>
          r := v;
        case Unmarshal =>
          var b := cache.GetMatching(matches, retry);
          if b.Answered? {
            r := b.value;
          } else {
            eventQueue.Destroy();
          }
        case IoError =>
          eventQueue.Destroy();
      }
    }

    /** The keys the lateral cache holds; an I/O failure stops the queue and gives
        the empty set. The status is not consulted. */
    method GetKeySet(ioFault: bool) returns (keys: set<K>)
      modifies eventQueue
      ensures eventQueue.events == old(eventQueue.events)
      ensures !ioFault ==> keys == cache.store.Keys && eventQueue.working == old(eventQueue.working)
      ensures ioFault ==> keys == {} && !eventQueue.working
    {
      if ioFault {
        eventQueue.Destroy();
        keys := {};
      } else {
        keys := cache.store.Keys;
      }
    }

    /** Queues a remove and always answers false: the outcome is not known yet. A
        failed enqueue stops the queue instead of reaching the caller. */
    method Remove(key: K, ioFault: bool) returns (removed: bool)
      requires Valid()
      modifies this`removeCount, eventQueue
      ensures !removed
      ensures Valid() && removeCount == Inc32(old(removeCount))
      ensures eventQueue == old(eventQueue)
      ensures old(eventQueue.working) && !ioFault ==>
                eventQueue.working && eventQueue.events == old(eventQueue.events) + [RemoveEvent(key)]
      ensures !(old(eventQueue.working) && !ioFault) ==>
                !eventQueue.working && eventQueue.events == old(eventQueue.events)
    {
      removeCount := Inc32(removeCount);
      var accepted := eventQueue.Add(RemoveEvent(key), ioFault);
      if !accepted {
        eventQueue.Destroy();
      }
      removed := false;
    }

    /** Queues a remove-all; a failed enqueue stops the queue. */
    method RemoveAll(ioFault: bool)
      modifies eventQueue
      ensures eventQueue == old(eventQueue)
      ensures old(eventQueue.working) && !ioFault ==>
                eventQueue.working && eventQueue.events == old(eventQueue.events) + [RemoveAllEvent]
      ensures !(old(eventQueue.working) && !ioFault) ==>
                !eventQueue.working && eventQueue.events == old(eventQueue.events)
    {
      var accepted := eventQueue.Add(RemoveAllEvent, ioFault);
      if !accepted {
        eventQueue.Destroy();
      }
    }

    /** Queues a dispose; a failed enqueue stops the queue. */
    method Dispose(ioFault: bool)
      modifies eventQueue
      ensures eventQueue == old(eventQueue)
      ensures old(eventQueue.working) && !ioFault ==>
                eventQueue.working && eventQueue.events == old(eventQueue.events) + [DisposeEvent]
      ensures !(old(eventQueue.working) && !ioFault) ==>
                !eventQueue.working && eventQueue.events == old(eventQueue.events)
    {
      var accepted := eventQueue.Add(DisposeEvent, ioFault);
      if !accepted {
        eventQueue.Destroy();
      }
    }

    /** Starts a new queue: the old one is destroyed if it was still working (and
        keeps what it had accepted), and a fresh, empty, working queue built by the
        factory takes its place, so the status is the cache's own again. */
    method ResetEventQ(instantiable: string -> bool)
      modifies this`eventQueue, eventQueue
      ensures !old(eventQueue).working && old(eventQueue).events == old(eventQueue.events)
      ensures fresh(eventQueue) && eventQueue.config == QueueFor(cache, instantiable)
      ensures eventQueue.working && eventQueue.events == []
      ensures GetStatus() == cache.status
    {
      if eventQueue.working {
        eventQueue.Destroy();
      }
      eventQueue := new EventQueue(QueueFor(cache, instantiable));
    }

    /** Installs a new service handle in the lateral cache, then resets the queue. */
    method FixCache(handle: ServiceHandle, instantiable: string -> bool)
      modifies this`eventQueue, eventQueue, cache`service
      ensures cache.service == handle
      ensures !old(eventQueue).working && old(eventQueue).events == old(eventQueue.events)
      ensures fresh(eventQueue) && eventQueue.config == QueueFor(cache, instantiable)
      ensures eventQueue.working && eventQueue.events == []
      ensures GetStatus() == cache.status
    {
      cache.FixCache(handle);
      ResetEventQ(instantiable);
    }
  }
}
