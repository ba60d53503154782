/** The in-process response cache of the statistics client: a key → (timestamp, value)
    map with a one-hour and a 24-hour expiry tier. The tier is chosen by the reader
    only; expiry is checked, and a stale entry deleted, at read time. Wall-clock time
    is the parameter `now`, in seconds as `time.time()` gives them (a real number). */
module ResponseCache {
  import opened Wrappers

  const ShortDuration: real := 3600.0
  const LongDuration: real := 86400.0

  datatype Entry<V> = Entry(stamp: real, value: V)

  type Store<V> = map<string, Entry<V>>

  function Duration(longTerm: bool): real {
    if longTerm then LongDuration else ShortDuration
  }

  /** `key` holds an entry younger than the reader's tier. */
  predicate Fresh<V>(store: Store<V>, key: string, longTerm: bool, now: real) {
    key in store && now - store[key].stamp < Duration(longTerm)
  }

  /** What a read returns, and the cache left behind by it. */
  datatype Lookup<V> = Lookup(hit: Option<V>, store: Store<V>)

  /** `_get_cache(key, long_term)` at time `now`. */
  function Get<V>(store: Store<V>, key: string, longTerm: bool, now: real): (r: Lookup<V>)
    ensures r.hit.Some? <==> Fresh(store, key, longTerm, now)
    ensures r.hit.Some? ==> r.hit.value == store[key].value && r.store == store
    ensures r.hit.None? ==> r.store == store - {key}
  {
    if key in store then
      if now - store[key].stamp < Duration(longTerm) then Lookup(Some(store[key].value), store)
      else Lookup(None, store - {key})
    else Lookup(None, store)
  }

  /** `_set_cache(key, value, long_term)` at time `now`; `long_term` is not consulted. */
  function Set<V>(store: Store<V>, key: string, value: V, longTerm: bool, now: real): (r: Store<V>)
    ensures r.Keys == store.Keys + {key}
    ensures r[key] == Entry(now, value)
    ensures forall k | k in store && k != key :: r[k] == store[k]
  {
    store[key := Entry(now, value)]
  }

  /** The writer's tier makes no difference to what is stored. */
  lemma SetIgnoresTier<V>(store: Store<V>, key: string, value: V, now: real)
    ensures Set(store, key, value, true, now) == Set(store, key, value, false, now)
  {
  }

  /** A value read back at the instant it was written is returned on either tier,
      and the read leaves the cache as the write left it. */
  lemma SetThenGet<V>(store: Store<V>, key: string, value: V, writeTier: bool, readTier: bool, now: real)
    ensures Get(Set(store, key, value, writeTier, now), key, readTier, now)
            == Lookup(Some(value), Set(store, key, value, writeTier, now))
  {
  }

  /** A value written at `written` is returned exactly while fewer than the tier's
      seconds have passed; afterwards the read is a miss and removes the entry. */
  lemma ExpiryBoundary<V>(store: Store<V>, key: string, value: V, written: real, readTier: bool, now: real)
    ensures var s := Set(store, key, value, false, written);
            Get(s, key, readTier, now).hit == (if now - written < Duration(readTier) then Some(value) else None)
    ensures var s := Set(store, key, value, false, written);
            now - written >= Duration(readTier) ==> key !in Get(s, key, readTier, now).store
  {
  }

  /** A read touches no key but its own. */
  lemma GetKeepsOtherKeys<V>(store: Store<V>, key: string, longTerm: bool, now: real, other: string)
    requires other != key
    ensures other in Get(store, key, longTerm, now).store <==> other in store
    ensures other in store ==> Get(store, key, longTerm, now).store[other] == store[other]
  {
  }

  /** Whatever the short tier still returns, the long tier returns too. */
  lemma LongTierOutlivesShort<V>(store: Store<V>, key: string, now: real)
    requires Get(store, key, false, now).hit.Some?
    ensures Get(store, key, true, now) == Get(store, key, false, now)
  {
  }
}
