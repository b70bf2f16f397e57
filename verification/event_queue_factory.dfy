/**
 * The rule that picks the kind of event queue an auxiliary gets
 * (engine/CacheEventQueueFactory.java).
 */
module EventQueueFactory {
  import opened Wrappers

  /** The pool-type name of the single-worker queue (ICacheEventQueue.SINGLE_QUEUE_TYPE). */
  const SINGLE_QUEUE_TYPE: string := "SINGLE"
  /** The pool-type name of the pooled queue (ICacheEventQueue.POOLED_QUEUE_TYPE). */
  const POOLED_QUEUE_TYPE: string := "POOLED"

  /** Defaults that the short factory overload supplies. */
  const DEFAULT_MAX_FAILURE: int := 10
  const DEFAULT_WAIT_BEFORE_RETRY: int := 500

  /** The implementation of a queue: the single-worker queue, the pooled queue, or a
      class loaded by name. */
  datatype QueueType = Single | Pooled | Custom(className: string)

  /** A constructed queue, described by its implementation and the settings it was
      given. `threadPoolName` is `None` for the single-worker queue, whose
      constructor does not take one. */
  datatype QueueConfig<L> = QueueConfig(
    queueType: QueueType,
    listener: L,
    listenerId: int,
    cacheName: string,
    maxFailure: int,
    waitBeforeRetry: int,
    threadPoolName: Option<string>)

  /** Upper-casing of ASCII letters; other characters are left as they are. */
  function ToUpper(c: char): char {
    if 'a' <= c <= 'z' then (c as int - 32) as char else c
  }

  /** Java's `String.equalsIgnoreCase`, with case folding restricted to ASCII letters. */
  predicate EqualsIgnoreCase(a: string, b: string) {
    |a| == |b| && forall i :: 0 <= i < |a| ==> ToUpper(a[i]) == ToUpper(b[i])
  }

  /** A null pool type, or the single-queue name in any case. */
  predicate NamesSingle(poolType: Option<string>) {
    poolType.None? || EqualsIgnoreCase(SINGLE_QUEUE_TYPE, poolType.value)
  }

  /** The pooled-queue name in any case. */
  predicate NamesPooled(poolType: Option<string>) {
    poolType.Some? && EqualsIgnoreCase(POOLED_QUEUE_TYPE, poolType.value)
  }

  /** The fully configured factory method. A pool type that names neither built-in
      queue is taken as a class name; `instantiable` says whether that class can be
      loaded and instantiated, and when it cannot the single-worker queue is used. */
  function CreateCacheEventQueueFull<L>(
    listener: L, listenerId: int, cacheName: string,
    maxFailure: int, waitBeforeRetry: int,
    threadPoolName: Option<string>, poolType: Option<string>,
    instantiable: string -> bool): (q: QueueConfig<L>)
    // every queue is built with the caller's listener and settings
    ensures q.listener == listener && q.listenerId == listenerId && q.cacheName == cacheName
    ensures q.maxFailure == maxFailure && q.waitBeforeRetry == waitBeforeRetry
    // the single-worker queue for null or "single" in any case
    ensures NamesSingle(poolType) ==> q.queueType == Single && q.threadPoolName == None
    // the pooled queue, carrying the pool name, for "pooled" in any case
    ensures NamesPooled(poolType) ==> q.queueType == Pooled && q.threadPoolName == threadPoolName
    // a loadable class name gives that class, initialized with the pool name too
    ensures !NamesSingle(poolType) && !NamesPooled(poolType) && instantiable(poolType.value) ==>
              q.queueType == Custom(poolType.value) && q.threadPoolName == threadPoolName
    // an unloadable class name falls back to the single-worker queue
    ensures !NamesSingle(poolType) && !NamesPooled(poolType) && !instantiable(poolType.value) ==>
              q.queueType == Single && q.threadPoolName == None
  {
    var single := QueueConfig(Single, listener, listenerId, cacheName, maxFailure, waitBeforeRetry, None);
    BuiltInNamesExclusive(poolType);
    if NamesSingle(poolType) then
      single
    else if EqualsIgnoreCase(POOLED_QUEUE_TYPE, poolType.value) then
      QueueConfig(Pooled, listener, listenerId, cacheName, maxFailure, waitBeforeRetry, threadPoolName)
    else if instantiable(poolType.value) then
      QueueConfig(Custom(poolType.value), listener, listenerId, cacheName, maxFailure, waitBeforeRetry, threadPoolName)
    else
      single
  }

  /** The short overload: the full factory with the default retry policy, at most
      10 failures and 500 milliseconds between retries. */
  function CreateCacheEventQueue<L>(
    listener: L, listenerId: int, cacheName: string,
    threadPoolName: Option<string>, poolType: Option<string>,
    instantiable: string -> bool): (q: QueueConfig<L>)
    ensures q.maxFailure == DEFAULT_MAX_FAILURE && q.waitBeforeRetry == DEFAULT_WAIT_BEFORE_RETRY
    ensures q == CreateCacheEventQueueFull(listener, listenerId, cacheName,
                   DEFAULT_MAX_FAILURE, DEFAULT_WAIT_BEFORE_RETRY, threadPoolName, poolType, instantiable)
  {
    CreateCacheEventQueueFull(listener, listenerId, cacheName, 10, 500, threadPoolName, poolType, instantiable)
  }

  /** The two built-in names never both match one pool type, so the order of the
      tests in the factory does not matter. */
  lemma BuiltInNamesExclusive(poolType: Option<string>)
    ensures !(NamesSingle(poolType) && NamesPooled(poolType))
  {
    if poolType.Some? && EqualsIgnoreCase(SINGLE_QUEUE_TYPE, poolType.value) {
      assert ToUpper(poolType.value[0]) == ToUpper(SINGLE_QUEUE_TYPE[0]) == 'S';
      assert ToUpper(POOLED_QUEUE_TYPE[0]) == 'P';
    }
  }

  /** The factory never selects a custom class for a pool type that spells one of the
      built-in names in some case, whatever classes could be loaded. */
  lemma CustomOnlyForOtherNames<L>(
    listener: L, listenerId: int, cacheName: string, maxFailure: int, waitBeforeRetry: int,
    threadPoolName: Option<string>, poolType: Option<string>, instantiable: string -> bool)
    requires CreateCacheEventQueueFull(listener, listenerId, cacheName, maxFailure, waitBeforeRetry,
                                       threadPoolName, poolType, instantiable).queueType.Custom?
    ensures poolType.Some? && instantiable(poolType.value)
    ensures !EqualsIgnoreCase(poolType.value, SINGLE_QUEUE_TYPE)
    ensures !EqualsIgnoreCase(poolType.value, POOLED_QUEUE_TYPE)
  {
  }

  /** Pool types that differ only in the case of their letters select the same
      built-in queue: if either names a built-in queue, both give the same queue. */
  lemma BuiltInSelectionIgnoresCase<L>(
    listener: L, listenerId: int, cacheName: string, maxFailure: int, waitBeforeRetry: int,
    threadPoolName: Option<string>, s: string, t: string, instantiable: string -> bool)
    requires EqualsIgnoreCase(s, t)
    requires NamesSingle(Some(s)) || NamesPooled(Some(s))
    ensures CreateCacheEventQueueFull(listener, listenerId, cacheName, maxFailure, waitBeforeRetry,
                                      threadPoolName, Some(s), instantiable)
         == CreateCacheEventQueueFull(listener, listenerId, cacheName, maxFailure, waitBeforeRetry,
                                      threadPoolName, Some(t), instantiable)
  {
  }
}
