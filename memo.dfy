/**
 * The memo store behind `from_cache`, which the OS parser inherits from its
 * parser base class: the values already computed, keyed by user agent. A
 * value is computed at most once per key and then served from the store.
 * The store is generic in the value it keeps; the OS parser keeps its
 * `os_info` records in it.
 */
module Memo {

  class Cache<V> {
    /** What the block handed to `from_cache` computes for a user agent; deterministic. */
    const compute: string -> V
    var entries: map<string, V>

    /** Every stored value is the one the block computes for its key. */
    ghost predicate Valid()
      reads this
    {
      forall ua :: ua in entries ==> entries[ua] == compute(ua)
    }

    constructor (compute: string -> V)
      ensures Valid()
      ensures this.compute == compute && entries == map[]
    {
      this.compute := compute;
      entries := map[];
    }

    /**
     * `from_cache(key) { ... }` for user agent `ua`: the stored value when
     * there is one, otherwise the freshly computed value, which is then
     * stored. Either way it is the value computed for `ua`, so repeated
     * calls return the same value.
     */
    method Fetch(ua: string) returns (v: V)
      requires Valid()
      modifies this
      ensures Valid()
      ensures v == compute(ua)
      ensures ua in old(entries) ==> v == old(entries)[ua]
      ensures entries == old(entries)[ua := v]
    {
      if ua in entries {
        v := entries[ua];
      } else {
        v := compute(ua);
        entries := entries[ua := v];
      }
    }
  }
}
