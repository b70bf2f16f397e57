/**
 * An auxiliary's event queue, as the no-wait wrapper sees it: whether it is still
 * working and the events it has accepted, in submission order. Delivery to the
 * listener, its retries and its worker threads are not part of this model.
 */
module CacheEventQueue {
  import opened CacheTypes
  import opened EventQueueFactory

  /** The write-class operations a queue carries to its listener. */
  datatype CacheEvent<K, V> =
    | PutEvent(element: CacheElement<K, V>)
    | RemoveEvent(key: K)
    | RemoveAllEvent
    | DisposeEvent

  class EventQueue<L, K, V> {
    /** What the factory built: implementation, listener and retry settings. */
    const config: QueueConfig<L>
    /** False once the queue is destroyed; a destroyed queue never works again. */
    var working: bool
    /** The events accepted so far, oldest first. */
    var events: seq<CacheEvent<K, V>>

    /** A new queue works and holds no events. */
    constructor (config: QueueConfig<L>)
      ensures this.config == config && working && events == []
    {
      this.config := config;
      working := true;
      events := [];
    }

    /** Stops the queue for good; what it accepted stays recorded. */
    method Destroy()
      modifies this
      ensures !working && events == old(events)
    {
      working := false;
    }

    /** Submits an event. A destroyed queue rejects it; `ioFault` says whether the
        enqueue itself fails with an I/O error. The event is appended exactly when
        it is accepted, and submission never revives or stops the queue. */
    method Add(e: CacheEvent<K, V>, ioFault: bool) returns (accepted: bool)
      modifies this
      ensures accepted == (old(working) && !ioFault)
      ensures events == if accepted then old(events) + [e] else old(events)
      ensures working == old(working)
    {
      accepted := working && !ioFault;
      if accepted {
        events := events + [e];
      }
    }
  }
}
