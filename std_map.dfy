/**
 * The part of `std::map<int, shared_ptr<T>>` that the Spoolman cache client uses:
 * `operator[]`, which returns the entry for a key and, when the key is absent,
 * first inserts a value-initialised entry (a null `shared_ptr`) for it.
 */
module StdMap {
  import opened Wrappers

  /** An id-keyed cache whose entries may be null pointers. */
  type Cache<V> = map<int, Option<V>>

  /** What `operator[]` hands back, together with the map as it is afterwards. */
  datatype Access<V> = Access(value: Option<V>, after: Cache<V>)

  /** `m[key]` on a `std::map` whose mapped type is a `shared_ptr`. */
  function Subscript<V>(m: Cache<V>, key: int): (r: Access<V>)
    // the map afterwards holds the old keys and `key`, and nothing else
    ensures r.after.Keys == m.Keys + {key}
    // the value handed back is the one now stored under `key`
    ensures key in r.after && r.after[key] == r.value
    // entries that were there before are untouched (including the one under `key`)
    ensures forall k :: k in m ==> r.after[k] == m[k]
    // a miss yields a null pointer and adds exactly one entry
    ensures key !in m ==> r.value == None && |r.after| == |m| + 1
    // a hit changes nothing
    ensures key in m ==> r.after == m
  {
    if key in m then Access(m[key], m) else Access(None, m[key := None])
  }
}
