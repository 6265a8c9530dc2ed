/** The template that `NominatimGeocoder.geocode` and the two
    `OSMDataFetcher` fetch methods share: look the key up in the cache; on a
    miss, wait for the request class's throttle, ask the provider, and cache
    what it returns. The provider is an oracle: `Some(v)` when it answers,
    `None` when it raises. */
module Fetch {
  import opened Common
  import opened Cache
  import opened RateLimit

  datatype Outcome<V> =
    | FromCache(value: V)    // the cache held the value
    | Fetched(value: V)      // the provider answered
    | ProviderFailed         // the provider raised
    | CacheReadFailed        // `get` raised `CacheError`; it is not caught

  /** A call's effect: the cache and timer afterwards, how long it slept,
      when it asked the provider (`None`: it did not), whether a failed cache
      write was reported as a warning, and what it produced. */
  datatype Call<V> = Call(
    store: Store<V>,
    timer: Timer,
    slept: real,
    askedAt: Option<real>,
    writeWarning: bool,
    outcome: Outcome<V>)

  /** How `key` reads once a read-through fetch of it is over: a miss the
      provider answered reads as the write left it (the value, a truncated
      file, or still nothing when the file could not be opened); every
      other case reads as before. */
  function ReadAfter<V>(store: Store<V>, key: string, answer: Option<V>, write: WriteOutcome): Lookup<V>
  {
    if Get(store, key).Miss? && answer.Some? then
      match write
      case Written => Hit(answer.value)
      case DumpFailed => ReadFailed
      case OpenFailed => Miss
    else Get(store, key)
  }

  function CachedFetch<V>(
    store: Store<V>, timer: Timer, key: string, now: real, answer: Option<V>, write: WriteOutcome
  ): (c: Call<V>)
    // served from the cache, or the cache read raised: no wait, no request, nothing changes
    ensures !Get(store, key).Miss? ==>
      c.store == store && c.timer == timer && c.slept == 0.0 && c.askedAt == None && !c.writeWarning
    ensures Get(store, key).Hit? ==> c.outcome == FromCache(Get(store, key).value)
    ensures Get(store, key).ReadFailed? ==> c.outcome == CacheReadFailed
    // a miss: the request is issued when the throttle allows, and that instant is recorded
    ensures Get(store, key).Miss? ==>
      && c.askedAt == Some(now + c.slept)
      && c.slept == Wait(timer, now).slept
      && c.timer == Timer(timer.limit, c.askedAt)
    ensures Get(store, key).Miss? && timer.last.Some? ==>
      c.askedAt.value >= timer.last.value + timer.limit
    // the provider raised: nothing is cached
    ensures Get(store, key).Miss? && answer.None? ==>
      c.outcome == ProviderFailed && c.store == store && !c.writeWarning
    // the provider answered: its value is returned whether or not caching it worked
    ensures Get(store, key).Miss? && answer.Some? ==>
      && c.outcome == Fetched(answer.value)
      && c.store == Set(store, key, answer.value, write).store
      && (c.writeWarning <==> !write.Written?)
    // only the file of `key` may change, and it reads as the fetch left it
    ensures OnlyTouches(store, c.store, key)
    ensures Get(c.store, key) == ReadAfter(store, key, answer, write)
  {
    match Get(store, key)
    case ReadFailed => Call(store, timer, 0.0, None, false, CacheReadFailed)
    case Hit(v) => Call(store, timer, 0.0, None, false, FromCache(v))
    case Miss =>
      var w := Wait(timer, now);
      var askedAt := now + w.slept;
      match answer
      case None => Call(store, w.timer, w.slept, Some(askedAt), false, ProviderFailed)
      case Some(v) =>
        var s := Set(store, key, v, write);
        Call(s.store, w.timer, w.slept, Some(askedAt), s.raised, Fetched(v))
  }

  /** Once a fetched value has been cached, asking again is served from the
      cache: no wait, no request, whatever the clock or the provider would say. */
  lemma FetchedThenServedFromCache<V>(
    store: Store<V>, timer: Timer, key: string, now: real, v: V,
    later: real, answer: Option<V>, write: WriteOutcome)
    requires Get(store, key).Miss?
    ensures
      var first := CachedFetch(store, timer, key, now, Some(v), Written);
      var again := CachedFetch(first.store, first.timer, key, later, answer, write);
      && again.outcome == FromCache(v)
      && again.askedAt == None && again.slept == 0.0
      && again.timer == first.timer && again.store == first.store
  {
  }
}
