/** geocoding.py: `NominatimGeocoder`'s cache key and `geocode`. Its
    throttle is `RateLimit.Wait` and its control flow is `Fetch.CachedFetch`;
    the provider is an oracle. The geocoder is generic in the cached value
    type, as the source caches and returns whatever it stored. */
module Geocoding {
  import opened Common
  import opened Text
  import opened Cache
  import opened RateLimit
  import opened Fetch

  /** `_cache_key`: `coords_{city.lower()}_{country.lower()}`. */
  function CacheKey(city: string, country: string): string
  {
    "coords_" + Lower(city) + "_" + Lower(country)
  }

  /** Lookups are case-insensitive: any spelling in upper or lower case
      reaches the same cache entry. */
  lemma CacheKeyIgnoresCase(city: string, country: string)
    ensures CacheKey(Upper(city), Upper(country)) == CacheKey(city, country)
    ensures CacheKey(Lower(city), Lower(country)) == CacheKey(city, country)
  {
    LowerOfUpper(city);
    LowerOfUpper(country);
    LowerIdempotent(city);
    LowerIdempotent(country);
  }

  lemma KeyFields(city: string, country: string)
    requires '_' !in city && '_' !in country
    ensures Split(CacheKey(city, country), '_') == ["coords", Lower(city), Lower(country)]
  {
    var a, b := Lower(city), Lower(country);
    LowerKeepsOut(city, '_');
    LowerKeepsOut(country, '_');
    assert CacheKey(city, country) == "coords" + ['_'] + (a + ['_'] + b);
    SplitAtFirst("coords", '_', a + ['_'] + b);
    SplitAtFirst(a, '_', b);
    SplitNoSeparator(b, '_');
  }

  /** When neither name contains an underscore, the key tells the
      lower-cased names apart. */
  lemma CacheKeyDecodes(city1: string, country1: string, city2: string, country2: string)
    requires '_' !in city1 && '_' !in country1
    requires '_' !in city2 && '_' !in country2
    requires CacheKey(city1, country1) == CacheKey(city2, country2)
    ensures Lower(city1) == Lower(city2) && Lower(country1) == Lower(country2)
  {
    KeyFields(city1, country1);
    KeyFields(city2, country2);
  }

  /** As written, an underscore moved from the end of the city name to the
      start of the country name gives a different place the same key. */
  lemma CacheKeyCollides(a: string, b: string, c: string)
    ensures a + "_" + b != a
    ensures CacheKey(a + "_" + b, c) == CacheKey(a, b + "_" + c)
  {
    var u := "_";
    assert |a + u + b| > |a|;
    var la, lb, lc := Lower(a), Lower(b), Lower(c);
    assert Lower(a + u + b) == la + u + lb by {
      LowerAppend(a + u, b);
      LowerAppend(a, u);
    }
    assert Lower(b + u + c) == lb + u + lc by {
      LowerAppend(b + u, c);
      LowerAppend(b, u);
    }
    Regroup("coords_", la, u, lb, lc);
  }

  /** The two ways of placing the middle underscore give one string. */
  lemma Regroup(k: string, x: string, u: string, y: string, z: string)
    ensures k + (x + u + y) + u + z == k + x + u + (y + u + z)
  {
  }

  /** What the provider makes of a query: a location, nothing (`None`), or an exception. */
  datatype Answer<V> = Location(value: V) | NoMatch | ProviderError

  /** A geocoder: the cache it shares and its own throttle. */
  datatype Geocoder<V> = Geocoder(store: Store<V>, timer: Timer)

  /** `geocode` returns coordinates, raises `ValueError` naming the query, or
      lets a `CacheError` from the cache read escape. */
  datatype Located<V> = Coordinates(value: V) | GeocodingFailed(query: string) | CacheFailure

  datatype Geocoded<V> = Geocoded(
    geocoder: Geocoder<V>,
    slept: real,
    askedAt: Option<real>,
    writeWarning: bool,
    result: Located<V>)

  /** The text sent to the provider, which the error message repeats. */
  function Query(city: string, country: string): string
  {
    city + ", " + country
  }

  /** `geocode` at clock reading `now`, the provider answering `answer`
      and the cache write going as `write` says. */
  function Geocode<V>(
    g: Geocoder<V>, city: string, country: string, now: real, answer: Answer<V>, write: WriteOutcome
  ): (r: Geocoded<V>)
    // a cache hit: the stored value, no wait, no stamp, no request
    ensures Get(g.store, CacheKey(city, country)).Hit? ==>
      && r.result == Coordinates(Get(g.store, CacheKey(city, country)).value)
      && r.askedAt.None? && r.slept == 0.0 && r.geocoder == g
    ensures Get(g.store, CacheKey(city, country)).ReadFailed? ==>
      r.result == CacheFailure && r.askedAt.None? && r.geocoder == g
    // a miss: the first request never waits, a later one waits out the spacing,
    // and the stamp is the moment the request goes out
    ensures Get(g.store, CacheKey(city, country)).Miss? ==>
      r.askedAt == Some(now + r.slept) && r.geocoder.timer == Timer(g.timer.limit, r.askedAt)
    ensures Get(g.store, CacheKey(city, country)).Miss? && g.timer.last.None? ==> r.slept == 0.0
    ensures Get(g.store, CacheKey(city, country)).Miss? && g.timer.last.Some? ==>
      r.askedAt.value >= g.timer.last.value + g.timer.limit
    // nothing found or a provider error: ValueError with the query, nothing cached
    ensures Get(g.store, CacheKey(city, country)).Miss? && !answer.Location? ==>
      r.result == GeocodingFailed(Query(city, country)) && r.geocoder.store == g.store
    // found: returned even when caching it fails, which is only a warning
    ensures Get(g.store, CacheKey(city, country)).Miss? && answer.Location? ==>
      && r.result == Coordinates(answer.value)
      && (r.writeWarning <==> !write.Written?)
      && (write.Written? ==> Get(r.geocoder.store, CacheKey(city, country)) == Hit(answer.value))
    ensures OnlyTouches(g.store, r.geocoder.store, CacheKey(city, country))
    ensures Get(r.geocoder.store, CacheKey(city, country))
      == ReadAfter(g.store, CacheKey(city, country), if answer.Location? then Some(answer.value) else None, write)
  {
    var provided := if answer.Location? then Some(answer.value) else None;
    var c := CachedFetch(g.store, g.timer, CacheKey(city, country), now, provided, write);
    var result :=
      match c.outcome
      case FromCache(v) => Coordinates(v)
      case Fetched(v) => Coordinates(v)
      case ProviderFailed => GeocodingFailed(Query(city, country))
      case CacheReadFailed => CacheFailure;
    Geocoded(Geocoder(c.store, c.timer), c.slept, c.askedAt, c.writeWarning, result)
  }
}
