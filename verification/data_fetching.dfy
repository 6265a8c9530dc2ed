/** data_fetching.py: `OSMDataFetcher`, with its two independent throttles,
    its two cache keys and its two fetch methods. The provider (OSMnx) is an
    oracle: `Some(v)` when it answers, `None` when it raises. Coordinates
    appear in the keys through `show`, which stands for Python's `str` of a
    float. */
module DataFetching {
  import opened Common
  import opened Text
  import StringOrder
  import opened Cache
  import opened RateLimit
  import opened Fetch

  /** The two request classes; each has its own throttle. */
  datatype RequestClass = GraphRequests | FeatureRequests

  /** A fetcher: the cache it shares and one throttle per request class. */
  datatype Fetcher<V> = Fetcher(store: Store<V>, graph: Timer, features: Timer)

  function TimerOf<V>(f: Fetcher<V>, cls: RequestClass): Timer
  {
    match cls
    case GraphRequests => f.graph
    case FeatureRequests => f.features
  }

  function WithTimer<V>(f: Fetcher<V>, cls: RequestClass, t: Timer): Fetcher<V>
  {
    match cls
    case GraphRequests => f.(graph := t)
    case FeatureRequests => f.(features := t)
  }

  /** `_rate_limit_wait(request_type)`: throttles and stamps one class only. */
  function RateLimitWait<V>(f: Fetcher<V>, cls: RequestClass, now: real): (r: (real, Fetcher<V>))
    ensures r.0 >= 0.0
    ensures TimerOf(f, cls).last.None? ==> r.0 == 0.0
    ensures TimerOf(f, cls).last.Some? ==>
      r.0 == Max(0.0, TimerOf(f, cls).last.value + TimerOf(f, cls).limit - now)
    ensures TimerOf(r.1, cls) == Timer(TimerOf(f, cls).limit, Some(now + r.0))
    ensures r.1.store == f.store
    ensures cls.GraphRequests? ==> r.1.features == f.features
    ensures cls.FeatureRequests? ==> r.1.graph == f.graph
  {
    var w := Wait(TimerOf(f, cls), now);
    (w.slept, WithTimer(f, cls, w.timer))
  }

  /** A Python float's `str` never contains an underscore. */
  ghost predicate ReprSafe(show: real -> string)
  {
    forall x :: '_' !in show(x)
  }

  /** `show` tells the two points' coordinates apart: Python's shortest
      round-trip `repr` prints different floats differently. */
  ghost predicate Distinguishes(show: real -> string, p1: Point, p2: Point)
  {
    && (show(p1.lat) == show(p2.lat) ==> p1.lat == p2.lat)
    && (show(p1.lon) == show(p2.lon) ==> p1.lon == p2.lon)
  }

  /** `_graph_cache_key`: `graph_{lat}_{lon}_{dist}`. */
  function GraphCacheKey(show: real -> string, p: Point, dist: int): string
  {
    "graph_" + show(p.lat) + "_" + show(p.lon) + "_" + IntText(dist)
  }

  lemma GraphKeyFields(show: real -> string, p: Point, dist: int)
    requires ReprSafe(show)
    ensures Split(GraphCacheKey(show, p, dist), '_') == ["graph", show(p.lat), show(p.lon), IntText(dist)]
  {
    var a, b, c := show(p.lat), show(p.lon), IntText(dist);
    assert '_' !in c;
    assert GraphCacheKey(show, p, dist) == "graph" + ['_'] + (a + ['_'] + (b + ['_'] + c));
    SplitAtFirst("graph", '_', a + ['_'] + (b + ['_'] + c));
    SplitAtFirst(a, '_', b + ['_'] + c);
    SplitAtFirst(b, '_', c);
    SplitNoSeparator(c, '_');
  }

  /** Two graph keys coincide exactly when both coordinates print alike
      and the radii are equal. */
  lemma GraphKeyEqual(show: real -> string, p1: Point, d1: int, p2: Point, d2: int)
    requires ReprSafe(show)
    ensures GraphCacheKey(show, p1, d1) == GraphCacheKey(show, p2, d2)
      <==> show(p1.lat) == show(p2.lat) && show(p1.lon) == show(p2.lon) && d1 == d2
  {
    if GraphCacheKey(show, p1, d1) == GraphCacheKey(show, p2, d2) {
      GraphKeyFields(show, p1, d1);
      GraphKeyFields(show, p2, d2);
      ParseIntText(d1);
      ParseIntText(d2);
    }
  }

  /** Different points or radii never share a graph key. */
  lemma GraphKeyInjective(show: real -> string, p1: Point, d1: int, p2: Point, d2: int)
    requires ReprSafe(show) && Distinguishes(show, p1, p2)
    requires GraphCacheKey(show, p1, d1) == GraphCacheKey(show, p2, d2)
    ensures p1 == p2 && d1 == d2
  {
    GraphKeyEqual(show, p1, d1, p2, d2);
  }

  /** One value of an OSM tag filter: `str | bool | list[str]`. */
  datatype TagValue = TagText(text: string) | TagFlag(flag: bool) | TagList(items: seq<string>)

  /** A tag filter as a Python dict: its entries in insertion order. */
  type Tags = seq<(string, TagValue)>

  function TagKeys(tags: Tags): (keys: seq<string>)
    ensures |keys| == |tags|
    ensures forall i :: 0 <= i < |tags| ==> keys[i] == tags[i].0
  {
    if tags == [] then [] else [tags[0].0] + TagKeys(tags[1..])
  }

  /** `_features_cache_key`: `{name}_{lat}_{lon}_{dist}_{"_".join(sorted(tags.keys()))}`. */
  function FeaturesCacheKey(show: real -> string, p: Point, dist: int, tags: Tags, name: string): string
  {
    name + "_" + show(p.lat) + "_" + show(p.lon) + "_" + IntText(dist) + "_"
      + Join("_", StringOrder.Sort(TagKeys(tags)))
  }

  /** The features key depends on the tag filter only through the
      collection of its keys: neither their order nor the values count. */
  lemma FeaturesKeyDependsOnlyOnTagKeys(
    show: real -> string, p: Point, dist: int, tags1: Tags, tags2: Tags, name: string)
    requires multiset(TagKeys(tags1)) == multiset(TagKeys(tags2))
    ensures FeaturesCacheKey(show, p, dist, tags1, name) == FeaturesCacheKey(show, p, dist, tags2, name)
  {
    StringOrder.SortIgnoresOrder(TagKeys(tags1), TagKeys(tags2));
  }

  /** As written, two filters that differ only in a value share a key. */
  lemma FeaturesKeyIgnoresValues(show: real -> string, p: Point, dist: int, name: string)
    ensures
      var water: Tags := [("natural", TagText("water"))];
      var wood: Tags := [("natural", TagText("wood"))];
      water != wood &&
      FeaturesCacheKey(show, p, dist, water, name) == FeaturesCacheKey(show, p, dist, wood, name)
  {
    var water: Tags := [("natural", TagText("water"))];
    var wood: Tags := [("natural", TagText("wood"))];
    assert water[0].1 != wood[0].1;
    FeaturesKeyDependsOnlyOnTagKeys(show, p, dist, water, wood, name);
  }

  /** The first four `_`-separated fields of a key built from four
      underscore-free pieces and a tail. */
  lemma FourFields(w: string, a: string, b: string, c: string, t: string)
    requires '_' !in w && '_' !in a && '_' !in b && '_' !in c
    ensures
      var parts := Split(w + "_" + a + "_" + b + "_" + c + "_" + t, '_');
      |parts| >= 4 && parts[..4] == [w, a, b, c]
  {
    assert w + "_" + a + "_" + b + "_" + c + "_" + t
      == w + ['_'] + (a + ['_'] + (b + ['_'] + (c + ['_'] + t)));
    SplitAtFirst(w, '_', a + ['_'] + (b + ['_'] + (c + ['_'] + t)));
    SplitAtFirst(a, '_', b + ['_'] + (c + ['_'] + t));
    SplitAtFirst(b, '_', c + ['_'] + t);
    SplitAtFirst(c, '_', t);
  }

  lemma FeaturesKeyFields(show: real -> string, p: Point, dist: int, tags: Tags, name: string)
    requires ReprSafe(show)
    requires '_' !in name
    ensures
      var parts := Split(FeaturesCacheKey(show, p, dist, tags, name), '_');
      |parts| >= 4 && parts[..4] == [name, show(p.lat), show(p.lon), IntText(dist)]
  {
    assert '_' !in IntText(dist);
    FourFields(name, show(p.lat), show(p.lon), IntText(dist), Join("_", StringOrder.Sort(TagKeys(tags))));
  }

  /** For a feature name without underscores, the features key tells apart
      requests that differ in name, point or radius. */
  lemma FeaturesKeyDeterminesRequest(
    show: real -> string, p1: Point, d1: int, tags1: Tags, name1: string,
    p2: Point, d2: int, tags2: Tags, name2: string)
    requires ReprSafe(show) && Distinguishes(show, p1, p2)
    requires '_' !in name1 && '_' !in name2
    requires FeaturesCacheKey(show, p1, d1, tags1, name1) == FeaturesCacheKey(show, p2, d2, tags2, name2)
    ensures name1 == name2 && p1 == p2 && d1 == d2
  {
    FeaturesKeyFields(show, p1, d1, tags1, name1);
    FeaturesKeyFields(show, p2, d2, tags2, name2);
    var parts := Split(FeaturesCacheKey(show, p1, d1, tags1, name1), '_');
    assert parts[0] == name1 && parts[0] == name2;
    assert show(p1.lat) == parts[1] == show(p2.lat);
    assert show(p1.lon) == parts[2] == show(p2.lon);
    assert IntText(d1) == parts[3] == IntText(d2);
    ParseIntText(d1);
    ParseIntText(d2);
  }

  /** `fetch_graph` / `fetch_features` return a value, return `None`, or let
      a `CacheError` from the cache read escape. */
  datatype Retrieved<V> = Got(value: V) | Nothing | CacheFailure

  datatype Retrieval<V> = Retrieval(
    fetcher: Fetcher<V>,
    slept: real,
    askedAt: Option<real>,
    writeWarning: bool,
    result: Retrieved<V>)

  /** The shared body of both fetch methods, on the throttle of `cls`. */
  function FetchAs<V>(
    f: Fetcher<V>, cls: RequestClass, key: string, now: real, answer: Option<V>, write: WriteOutcome
  ): (r: Retrieval<V>)
    ensures Get(f.store, key).Hit? ==>
      r.result == Got(Get(f.store, key).value) && r.askedAt.None? && r.slept == 0.0 && r.fetcher == f
    ensures Get(f.store, key).ReadFailed? ==> r.result == CacheFailure && r.askedAt.None? && r.fetcher == f
    ensures Get(f.store, key).Miss? ==>
      && r.slept == RateLimitWait(f, cls, now).0
      && r.askedAt == Some(now + r.slept)
      && TimerOf(r.fetcher, cls) == TimerOf(RateLimitWait(f, cls, now).1, cls)
    ensures cls.GraphRequests? ==> r.fetcher.features == f.features
    ensures cls.FeatureRequests? ==> r.fetcher.graph == f.graph
    ensures Get(f.store, key).Miss? && answer.None? ==> r.result == Nothing && r.fetcher.store == f.store
    ensures Get(f.store, key).Miss? && answer.Some? ==>
      && r.result == Got(answer.value)
      && (r.writeWarning <==> !write.Written?)
      && (write.Written? ==> Get(r.fetcher.store, key) == Hit(answer.value))
    ensures OnlyTouches(f.store, r.fetcher.store, key)
    ensures Get(r.fetcher.store, key) == ReadAfter(f.store, key, answer, write)
  {
    var c := CachedFetch(f.store, TimerOf(f, cls), key, now, answer, write);
    var result :=
      match c.outcome
      case FromCache(v) => Got(v)
      case Fetched(v) => Got(v)
      case ProviderFailed => Nothing
      case CacheReadFailed => CacheFailure;
    Retrieval(WithTimer(f.(store := c.store), cls, c.timer), c.slept, c.askedAt, c.writeWarning, result)
  }

  /** `fetch_graph` */
  function FetchGraph<V>(
    f: Fetcher<V>, show: real -> string, p: Point, dist: int, now: real, answer: Option<V>, write: WriteOutcome
  ): Retrieval<V>
  {
    FetchAs(f, GraphRequests, GraphCacheKey(show, p, dist), now, answer, write)
  }

  /** `fetch_features` */
  function FetchFeatures<V>(
    f: Fetcher<V>, show: real -> string, p: Point, dist: int, tags: Tags, name: string,
    now: real, answer: Option<V>, write: WriteOutcome
  ): Retrieval<V>
  {
    FetchAs(f, FeatureRequests, FeaturesCacheKey(show, p, dist, tags, name), now, answer, write)
  }
}
