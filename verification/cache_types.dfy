/** Types shared by every part of the cache engine. */
module CacheTypes {

  /** The status of a region, a memory cache, an auxiliary or an event queue. */
  datatype CacheStatus = ALIVE | DISPOSED | ERROR

  /** A cached entry: the region it belongs to, its key and its value. */
  datatype CacheElement<K, V> = CacheElement(cacheName: string, key: K, val: V)

  const TWO_31: int := 0x8000_0000
  const TWO_32: int := 0x1_0000_0000

  predicate IsInt32(x: int) {
    -TWO_31 <= x < TWO_31
  }

  /** Two's-complement truncation of an integer to Java's 32-bit `int`. */
  function Wrap32(x: int): (r: int)
    ensures IsInt32(r)
    ensures (r - x) % TWO_32 == 0
    ensures IsInt32(x) ==> r == x
  {
    (x + TWO_31) % TWO_32 - TWO_31
  }

  /** Java's `n++` on an `int` field: wraps from the largest value to the smallest. */
  function Inc32(x: int): (r: int)
    requires IsInt32(x)
    ensures IsInt32(r)
    ensures x < TWO_31 - 1 ==> r == x + 1
    ensures x == TWO_31 - 1 ==> r == -TWO_31
  {
    Wrap32(x + 1)
  }

  /** Incrementing a truncated sum truncates the next sum: n increments of a counter
      leave it at the truncation of its start plus n. */
  lemma Inc32OfWrap(x: int, n: int)
    ensures Inc32(Wrap32(x + n)) == Wrap32(x + n + 1)
  {
  }
}
