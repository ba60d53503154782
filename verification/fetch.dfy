/** `_make_request`: read the URL's entry on the short tier; a truthy hit is returned
    without touching the network. Otherwise up to `max_retries` attempts are made and
    the first successful payload is cached under the URL and returned. The network is
    the parameter `network` (attempt number → payload, or `None` for a
    `RequestException`); `clock` gives the wall-clock time at which attempt `i`
    finished; `truthy` is Python truthiness of a payload (an empty dict is falsy). */
module Fetch {
  import opened Wrappers
  import opened ResponseCache

  /** Index of the first successful attempt among `from .. limit-1`. */
  function FirstSuccess<V>(network: nat -> Option<V>, from: nat, limit: int): (r: Option<nat>)
    ensures r.Some? ==> from <= r.value < limit && network(r.value).Some?
    ensures r.Some? ==> forall j :: from <= j < r.value ==> network(j).None?
    ensures r.None? ==> forall j :: from <= j < limit ==> network(j).None?
    decreases limit - from
  {
    if from >= limit then None
    else if network(from).Some? then Some(from)
    else FirstSuccess(network, from + 1, limit)
  }

  datatype Fetched<V> = Fetched(data: Option<V>, store: Store<V>, attempts: nat)

  /** The cache hit that `_make_request` returns without a request, if any. */
  predicate CachedHit<V>(store: Store<V>, url: string, truthy: V -> bool, now: real) {
    var l := Get(store, url, false, now);
    l.hit.Some? && truthy(l.hit.value)
  }

  function MakeRequest<V>(store: Store<V>, url: string, maxRetries: int, truthy: V -> bool,
                          now: real, network: nat -> Option<V>, clock: nat -> real): (r: Fetched<V>)
    ensures var l := Get(store, url, false, now);
            CachedHit(store, url, truthy, now) ==> r == Fetched(l.hit, l.store, 0)
    ensures !CachedHit(store, url, truthy, now) ==>
              r.attempts <= (if maxRetries < 0 then 0 else maxRetries)
    ensures !CachedHit(store, url, truthy, now) ==>
              (r.data.Some? <==> exists i :: 0 <= i < maxRetries && network(i).Some?)
    ensures var l := Get(store, url, false, now);
            !CachedHit(store, url, truthy, now) && r.data.Some? ==>
              && r.attempts >= 1
              && r.data == network(r.attempts - 1)
              && (forall j :: 0 <= j < r.attempts - 1 ==> network(j).None?)
              && r.store == l.store[url := Entry(clock(r.attempts - 1), r.data.value)]
    ensures var l := Get(store, url, false, now);
            !CachedHit(store, url, truthy, now) && r.data.None? ==>
              r.attempts == (if maxRetries < 0 then 0 else maxRetries) && r.store == l.store
  {
    var l := Get(store, url, false, now);
    if l.hit.Some? && truthy(l.hit.value) then Fetched(l.hit, l.store, 0)
    else
      match FirstSuccess(network, 0, maxRetries)
      case Some(i) =>
        var data := network(i).value;
        Fetched(Some(data), Set(l.store, url, data, false, clock(i)), i + 1)
      case None =>
        Fetched(None, l.store, if maxRetries < 0 then 0 else maxRetries)
  }

  /** A truthy payload fetched successfully is served from the cache, with no request,
      to a repeat of the same URL within the hour. */
  lemma RepeatServedFromCache<V>(store: Store<V>, url: string, maxRetries: int, truthy: V -> bool,
                                 now: real, network: nat -> Option<V>, clock: nat -> real,
                                 later: real, maxRetries': int, network': nat -> Option<V>, clock': nat -> real)
    requires var r := MakeRequest(store, url, maxRetries, truthy, now, network, clock);
             r.data.Some? && truthy(r.data.value) && r.attempts >= 1
             && later - clock(r.attempts - 1) < ShortDuration
    ensures var r := MakeRequest(store, url, maxRetries, truthy, now, network, clock);
            MakeRequest(r.store, url, maxRetries', truthy, later, network', clock')
            == Fetched(r.data, r.store, 0)
  {
    var r := MakeRequest(store, url, maxRetries, truthy, now, network, clock);
    assert CachedHit(r.store, url, truthy, later);
  }

  /** A fresh but falsy cached payload (an empty dict) does not short-circuit: the
      network is asked at least once. */
  lemma FalsyEntryIsMiss<V>(store: Store<V>, url: string, maxRetries: int, truthy: V -> bool,
                            now: real, network: nat -> Option<V>, clock: nat -> real)
    requires Fresh(store, url, false, now) && !truthy(store[url].value)
    requires maxRetries >= 1
    ensures MakeRequest(store, url, maxRetries, truthy, now, network, clock).attempts >= 1
  {
  }
}
