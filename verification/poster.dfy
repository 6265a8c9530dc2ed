/** create_map_poster.py: `PosterGenerator.generate_poster` and
    `generate_all_themes`. Everything that comes from outside the
    program is an oracle. For each poster, a `World` fixes the clock
    readings, the providers' answers, how the cache writes go, the time
    stamp, OSMnx's projection and whether saving succeeds. */
module Poster {
  import opened Common
  import C = Cache
  import F = Fetch
  import RL = RateLimit
  import G = Geocoding
  import D = DataFetching
  import T = Themes
  import Ty = Typography
  import R = Renderer
  import O = Output
  import P = Paths

  /** What the one shared cache directory holds. */
  datatype Payload = Coords(point: Point) | Network(graph: R.Graph) | Shapes(shapes: seq<R.Shape>)

  /** The exceptions that end a poster: the geocoder's `ValueError`, a
      `CacheError` from a cache read, the missing street network's
      `RuntimeError`, a failure while rendering or saving, and a cached
      object of the wrong kind (which the program would trip over later). */
  datatype Failure =
    | GeocodingFailed(query: string)
    | CacheReadFailed
    | NoStreetNetwork
    | RenderFailed
    | UnexpectedCacheValue

  /** A `PosterGenerator` and the state its services carry between calls.
      `repr` is Python's `str` of a float (in cache keys), `fixed4` its
      `:.4f` formatting (on the poster). */
  datatype App = App(
    store: C.Store<Payload>,
    geocoding: RL.Timer,
    graphs: RL.Timer,
    features: RL.Timer,
    themes: T.Listing,
    outputDir: P.Path,
    fonts: Ty.FontSet,
    figWidth: real,
    figHeight: real,
    dpi: int,
    repr: real -> string,
    fixed4: real -> string)

  /** A figure of positive size, which `Config.validate` guarantees. */
  predicate Ready(app: App)
  {
    app.figWidth > 0.0 && app.figHeight > 0.0
  }

  /** Only the cache and the throttles change from one call to the next. */
  ghost predicate SameSetup(a: App, b: App)
  {
    && a.themes == b.themes && a.outputDir == b.outputDir && a.fonts == b.fonts
    && a.figWidth == b.figWidth && a.figHeight == b.figHeight && a.dpi == b.dpi
    && a.repr == b.repr && a.fixed4 == b.fixed4
  }

  /** Everything one poster meets outside the program, in the order it
      meets it. */
  datatype World = World(
    geocodeAt: real, location: G.Answer<Point>, geocodeWrite: C.WriteOutcome,
    graphAt: real, network: Option<R.Graph>, graphWrite: C.WriteOutcome,
    waterAt: real, water: Option<seq<R.Shape>>, waterWrite: C.WriteOutcome,
    parksAt: real, parks: Option<seq<R.Shape>>, parksWrite: C.WriteOutcome,
    stamp: O.Stamp,
    project: R.Graph -> R.Graph,
    saved: bool)

  /** The two feature requests of `generate_poster`. */
  const WaterTags: D.Tags := [("natural", D.TagText("water")), ("waterway", D.TagText("riverbank"))]
  const ParksTags: D.Tags := [("leisure", D.TagText("park")), ("landuse", D.TagText("grass"))]

  /** One step: the app afterwards, the time slept, and what it produced. */
  datatype Step<X> = Step(app: App, slept: real, result: Result<X, Failure>)

  function CoordsKey(city: string, country: string): string
  {
    G.CacheKey(city, country)
  }

  function WaterKey(app: App, p: Point, distance: int): string
  {
    D.FeaturesCacheKey(app.repr, p, distance, WaterTags, "water")
  }

  function ParksKey(app: App, p: Point, distance: int): string
  {
    D.FeaturesCacheKey(app.repr, p, distance, ParksTags, "parks")
  }

  function ToPayload(a: G.Answer<Point>): G.Answer<Payload>
  {
    match a
    case Location(p) => G.Location(Coords(p))
    case NoMatch => G.NoMatch
    case ProviderError => G.ProviderError
  }

  function GraphKey(app: App, p: Point, distance: int): string
  {
    D.GraphCacheKey(app.repr, p, distance)
  }

  /** The digest that names the file `key` is cached in: two keys share a
      file exactly when their digests agree. */
  function File(app: App, key: string): string
  {
    app.store.digest(key)
  }

  /** The place as the cache or the geocoder gives it, read from the cache
      as it stands before the poster starts. */
  function Where(app: App, w: World, city: string, country: string): Result<Point, Failure>
  {
    match C.Get(app.store, CoordsKey(city, country))
    case Hit(v) => if v.Coords? then Ok(v.point) else Err(UnexpectedCacheValue)
    case ReadFailed => Err(CacheReadFailed)
    case Miss => if w.location.Location? then Ok(w.location.value) else Err(GeocodingFailed(G.Query(city, country)))
  }

  /** The street network as `store` or the provider gives it; no network raises. */
  function NetworkRead(store: C.Store<Payload>, key: string, answer: Option<R.Graph>): Result<R.Graph, Failure>
  {
    match C.Get(store, key)
    case Hit(v) => if v.Network? then Ok(v.graph) else Err(UnexpectedCacheValue)
    case ReadFailed => Err(CacheReadFailed)
    case Miss => if answer.Some? then Ok(answer.value) else Err(NoStreetNetwork)
  }

  /** A feature layer as `store` or the provider gives it; no layer is a value. */
  function LayerRead(store: C.Store<Payload>, key: string, answer: Option<seq<R.Shape>>): Result<Option<seq<R.Shape>>, Failure>
  {
    match C.Get(store, key)
    case Hit(v) => if v.Shapes? then Ok(Some(v.shapes)) else Err(UnexpectedCacheValue)
    case ReadFailed => Err(CacheReadFailed)
    case Miss => Ok(answer)
  }

  /** The three map-data keys around `p` are cached in three different files. */
  ghost predicate DataApart(app: App, p: Point, distance: int)
  {
    && File(app, GraphKey(app, p, distance)) != File(app, WaterKey(app, p, distance))
    && File(app, GraphKey(app, p, distance)) != File(app, ParksKey(app, p, distance))
    && File(app, WaterKey(app, p, distance)) != File(app, ParksKey(app, p, distance))
  }

  /** The four keys of one poster are cached in four different files, which
      holds unless their MD5 digests collide. */
  ghost predicate Apart(app: App, city: string, country: string, p: Point, distance: int)
  {
    && DataApart(app, p, distance)
    && File(app, CoordsKey(city, country)) != File(app, GraphKey(app, p, distance))
    && File(app, CoordsKey(city, country)) != File(app, WaterKey(app, p, distance))
    && File(app, CoordsKey(city, country)) != File(app, ParksKey(app, p, distance))
  }

  /** `self.geocoder.geocode(city, country)` */
  function Locate(app: App, w: World, city: string, country: string): (s: Step<Point>)
    ensures SameSetup(s.app, app) && s.app.graphs == app.graphs && s.app.features == app.features
    ensures s.slept >= 0.0
    ensures !C.Get(app.store, CoordsKey(city, country)).Miss? ==> s.app == app && s.slept == 0.0
    ensures s.result == Err(GeocodingFailed(G.Query(city, country)))
      <==> C.Get(app.store, CoordsKey(city, country)).Miss? && !w.location.Location?
    ensures C.Get(app.store, CoordsKey(city, country)).Hit? && C.Get(app.store, CoordsKey(city, country)).value.Coords? ==>
      s.result == Ok(C.Get(app.store, CoordsKey(city, country)).value.point)
    ensures C.Get(app.store, CoordsKey(city, country)).Miss? && w.location.Location? ==>
      s.result == Ok(w.location.value)
    ensures C.Get(app.store, CoordsKey(city, country)).ReadFailed? ==> s.result == Err(CacheReadFailed)
    ensures s.result == Where(app, w, city, country)
    ensures C.OnlyTouches(app.store, s.app.store, CoordsKey(city, country))
    ensures C.Get(s.app.store, CoordsKey(city, country))
      == F.ReadAfter(app.store, CoordsKey(city, country), CoordsAnswer(w.location), w.geocodeWrite)
  {
    var g := G.Geocode(G.Geocoder(app.store, app.geocoding), city, country, w.geocodeAt, ToPayload(w.location), w.geocodeWrite);
    var next := app.(store := g.geocoder.store, geocoding := g.geocoder.timer);
    match g.result
    case Coordinates(v) => Step(next, g.slept, if v.Coords? then Ok(v.point) else Err(UnexpectedCacheValue))
    case GeocodingFailed(q) => Step(next, g.slept, Err(GeocodingFailed(q)))
    case CacheFailure => Step(next, g.slept, Err(CacheReadFailed))
  }

  /** What the geocoder caches for an answer. */
  function CoordsAnswer(a: G.Answer<Point>): Option<Payload>
  {
    if a.Location? then Some(Coords(a.value)) else None
  }

  function Fetcher(app: App): D.Fetcher<Payload>
  {
    D.Fetcher(app.store, app.graphs, app.features)
  }

  function WithFetcher(app: App, f: D.Fetcher<Payload>): App
  {
    app.(store := f.store, graphs := f.graph, features := f.features)
  }

  function MapNetwork(a: Option<R.Graph>): Option<Payload>
  {
    if a.Some? then Some(Network(a.value)) else None
  }

  function MapShapes(a: Option<seq<R.Shape>>): Option<Payload>
  {
    if a.Some? then Some(Shapes(a.value)) else None
  }

  /** `self.data_fetcher.fetch_graph(coords, distance)`, with `None` raising. */
  function FetchNetwork(app: App, w: World, key: string): (s: Step<R.Graph>)
    ensures SameSetup(s.app, app) && s.app.geocoding == app.geocoding && s.app.features == app.features
    ensures s.slept >= 0.0
    ensures !C.Get(app.store, key).Miss? ==> s.app == app && s.slept == 0.0
    ensures s.result == Err(NoStreetNetwork) <==> C.Get(app.store, key).Miss? && w.network.None?
    ensures C.Get(app.store, key).Miss? && w.network.Some? ==> s.result == Ok(w.network.value)
    ensures C.Get(app.store, key).ReadFailed? ==> s.result == Err(CacheReadFailed)
    ensures s.result == NetworkRead(app.store, key, w.network)
    ensures C.OnlyTouches(app.store, s.app.store, key)
    ensures C.Get(s.app.store, key) == F.ReadAfter(app.store, key, MapNetwork(w.network), w.graphWrite)
  {
    var r := D.FetchAs(Fetcher(app), D.GraphRequests, key, w.graphAt, MapNetwork(w.network), w.graphWrite);
    var next := WithFetcher(app, r.fetcher);
    match r.result
    case Got(v) => Step(next, r.slept, if v.Network? then Ok(v.graph) else Err(UnexpectedCacheValue))
    case Nothing => Step(next, r.slept, Err(NoStreetNetwork))
    case CacheFailure => Step(next, r.slept, Err(CacheReadFailed))
  }

  /** `self.data_fetcher.fetch_features(...)` under its cache key `key`
      (`WaterKey` or `ParksKey`): `None` is a result, not an error. */
  function FetchLayer(app: App, key: string, at: real, answer: Option<seq<R.Shape>>, write: C.WriteOutcome)
    : (s: Step<Option<seq<R.Shape>>>)
    ensures SameSetup(s.app, app) && s.app.geocoding == app.geocoding && s.app.graphs == app.graphs
    ensures s.slept >= 0.0
    ensures !C.Get(app.store, key).Miss? ==> s.app == app && s.slept == 0.0
    ensures C.Get(app.store, key).Miss? ==> s.result == Ok(answer)
    ensures C.Get(app.store, key).ReadFailed? ==> s.result == Err(CacheReadFailed)
    ensures s.result.Err? ==> s.result.error == CacheReadFailed || s.result.error == UnexpectedCacheValue
    ensures s.result == LayerRead(app.store, key, answer)
    ensures C.OnlyTouches(app.store, s.app.store, key)
    ensures C.Get(s.app.store, key) == F.ReadAfter(app.store, key, MapShapes(answer), write)
  {
    var r := D.FetchAs(Fetcher(app), D.FeatureRequests, key, at, MapShapes(answer), write);
    var next := WithFetcher(app, r.fetcher);
    match r.result
    case Got(v) => Step(next, r.slept, if v.Shapes? then Ok(Some(v.shapes)) else Err(UnexpectedCacheValue))
    case Nothing => Step(next, r.slept, Ok(None))
    case CacheFailure => Step(next, r.slept, Err(CacheReadFailed))
  }

  /** The street network and both feature layers around `p` are cached. */
  predicate DataCached(app: App, p: Point, distance: int)
  {
    && C.Get(app.store, GraphKey(app, p, distance)).Hit?
    && C.Get(app.store, WaterKey(app, p, distance)).Hit?
    && C.Get(app.store, ParksKey(app, p, distance)).Hit?
  }

  /** Everything a poster needs is already cached, under the keys the
      cached coordinates lead to. */
  predicate Warm(app: App, city: string, country: string, distance: int)
  {
    var cached := C.Get(app.store, CoordsKey(city, country));
    cached.Hit? && cached.value.Coords? && DataCached(app, cached.value.point, distance)
  }

  /** The map data of one poster. */
  datatype MapData = MapData(graph: R.Graph, water: Option<seq<R.Shape>>, parks: Option<seq<R.Shape>>)

  /** The map data under the three keys, read against `store` or downloaded:
      the network, then water, then parks, and the first failure is the one
      raised. */
  function PlannedAt(store: C.Store<Payload>, w: World, graphKey: string, waterKey: string, parksKey: string)
    : Result<MapData, Failure>
  {
    var network := NetworkRead(store, graphKey, w.network);
    var water := LayerRead(store, waterKey, w.water);
    var parks := LayerRead(store, parksKey, w.parks);
    if network.Err? then Err(network.error)
    else if water.Err? then Err(water.error)
    else if parks.Err? then Err(parks.error)
    else Ok(MapData(network.value, water.value, parks.value))
  }

  /** The map data around `p`, read against `app`'s cache or downloaded. */
  function Planned(app: App, w: World, p: Point, distance: int): Result<MapData, Failure>
  {
    PlannedAt(app.store, w, GraphKey(app, p, distance), WaterKey(app, p, distance), ParksKey(app, p, distance))
  }

  /** Writing `key` leaves the planned map data alone when the three data
      keys live in other files. */
  lemma PlannedAtUntouched(s: C.Store<Payload>, t: C.Store<Payload>, key: string, w: World,
                           graphKey: string, waterKey: string, parksKey: string)
    requires C.OnlyTouches(s, t, key)
    requires s.digest(key) != s.digest(graphKey)
    requires s.digest(key) != s.digest(waterKey)
    requires s.digest(key) != s.digest(parksKey)
    ensures PlannedAt(t, w, graphKey, waterKey, parksKey) == PlannedAt(s, w, graphKey, waterKey, parksKey)
  {
    C.ReadsAsBefore(s, t, key, graphKey);
    C.ReadsAsBefore(s, t, key, waterKey);
    C.ReadsAsBefore(s, t, key, parksKey);
  }

  /** A step that touched only `key`'s file and left `key` reading `kept`:
      a key in that file reads `kept`, any other reads as before. */
  lemma ReadsAfterStep(s: C.Store<Payload>, t: C.Store<Payload>, key: string, kept: C.Lookup<Payload>, k: string)
    requires C.OnlyTouches(s, t, key) && C.Get(t, key) == kept
    ensures C.Get(t, k) == if s.digest(k) == s.digest(key) then kept else C.Get(s, k)
  {
    if s.digest(k) == s.digest(key) {
      assert C.FileName(t, k) == C.FileName(t, key);
    } else {
      C.ReadsAsBefore(s, t, key, k);
    }
  }

  /** How `k` reads once the two layers have been read or fetched against
      `store` in turn: water, then parks unless water failed. */
  function LayersAfter(store: C.Store<Payload>, w: World, waterKey: string, parksKey: string, k: string)
    : C.Lookup<Payload>
  {
    if store.digest(k) == store.digest(waterKey) then F.ReadAfter(store, waterKey, MapShapes(w.water), w.waterWrite)
    else if LayerRead(store, waterKey, w.water).Err? then C.Get(store, k)
    else if store.digest(k) == store.digest(parksKey) then F.ReadAfter(store, parksKey, MapShapes(w.parks), w.parksWrite)
    else C.Get(store, k)
  }

  /** How `k` reads once the map data has been read or fetched against
      `store`: the network, then the layers unless the network failed. */
  function DataAfter(store: C.Store<Payload>, w: World, graphKey: string, waterKey: string, parksKey: string, k: string)
    : C.Lookup<Payload>
  {
    if store.digest(k) == store.digest(graphKey) then F.ReadAfter(store, graphKey, MapNetwork(w.network), w.graphWrite)
    else if NetworkRead(store, graphKey, w.network).Err? then C.Get(store, k)
    else LayersAfter(store, w, waterKey, parksKey, k)
  }

  /** How `k` reads once a poster that began from `app` is over: the
      coordinates as the geocoder left them, then the map data unless the
      place is unknown. Drawing does not touch the cache. */
  function After(app: App, w: World, city: string, country: string, distance: int, k: string): C.Lookup<Payload>
  {
    var coords := CoordsKey(city, country);
    var where := Where(app, w, city, country);
    if File(app, k) == File(app, coords) then F.ReadAfter(app.store, coords, CoordsAnswer(w.location), w.geocodeWrite)
    else if where.Err? then C.Get(app.store, k)
    else DataAfter(app.store, w, GraphKey(app, where.value, distance), WaterKey(app, where.value, distance),
                   ParksKey(app, where.value, distance), k)
  }

  /** Water failed: only its file may have changed, and the layers are over. */
  lemma WaterFailedAfter(s: C.Store<Payload>, t: C.Store<Payload>, w: World, waterKey: string, parksKey: string)
    requires C.OnlyTouches(s, t, waterKey)
    requires C.Get(t, waterKey) == F.ReadAfter(s, waterKey, MapShapes(w.water), w.waterWrite)
    requires LayerRead(s, waterKey, w.water).Err?
    ensures forall k :: C.Get(t, k) == LayersAfter(s, w, waterKey, parksKey, k)
  {
    forall k
      ensures C.Get(t, k) == LayersAfter(s, w, waterKey, parksKey, k)
    {
      ReadsAfterStep(s, t, waterKey, F.ReadAfter(s, waterKey, MapShapes(w.water), w.waterWrite), k);
    }
  }

  /** Water, then parks: only their two files may have changed, and when
      they are two files each reads as its own fetch left it. */
  lemma BothLayersAfter(s: C.Store<Payload>, t1: C.Store<Payload>, t2: C.Store<Payload>, w: World,
                        waterKey: string, parksKey: string)
    requires C.OnlyTouches(s, t1, waterKey)
    requires C.Get(t1, waterKey) == F.ReadAfter(s, waterKey, MapShapes(w.water), w.waterWrite)
    requires LayerRead(s, waterKey, w.water).Ok?
    requires C.OnlyTouches(t1, t2, parksKey)
    requires C.Get(t2, parksKey) == F.ReadAfter(t1, parksKey, MapShapes(w.parks), w.parksWrite)
    ensures forall k :: s.digest(k) != s.digest(waterKey) && s.digest(k) != s.digest(parksKey) ==>
      C.Get(t2, k) == C.Get(s, k)
    ensures s.digest(waterKey) != s.digest(parksKey) ==>
      forall k :: C.Get(t2, k) == LayersAfter(s, w, waterKey, parksKey, k)
  {
    var kept, kept' := F.ReadAfter(s, waterKey, MapShapes(w.water), w.waterWrite),
                       F.ReadAfter(t1, parksKey, MapShapes(w.parks), w.parksWrite);
    if s.digest(waterKey) != s.digest(parksKey) {
      C.ReadsAsBefore(s, t1, waterKey, parksKey);
    }
    forall k
      ensures s.digest(k) != s.digest(waterKey) && s.digest(k) != s.digest(parksKey) ==> C.Get(t2, k) == C.Get(s, k)
      ensures s.digest(waterKey) != s.digest(parksKey) ==> C.Get(t2, k) == LayersAfter(s, w, waterKey, parksKey, k)
    {
      ReadsAfterStep(s, t1, waterKey, kept, k);
      ReadsAfterStep(t1, t2, parksKey, kept', k);
    }
  }

  /** The two feature layers of `generate_poster` under their keys: water,
      then parks. */
  method FetchLayers(app: App, w: World, waterKey: string, parksKey: string)
    returns (s: Step<(Option<seq<R.Shape>>, Option<seq<R.Shape>>)>)
    ensures SameSetup(s.app, app) && s.app.geocoding == app.geocoding && s.app.graphs == app.graphs
    ensures s.slept >= 0.0
    ensures s.result.Err? ==> s.result.error == CacheReadFailed || s.result.error == UnexpectedCacheValue
    ensures C.Get(app.store, waterKey).Hit? && C.Get(app.store, parksKey).Hit? ==> s.app == app && s.slept == 0.0
    // read against the cache as it was: water first, and its failure is the one raised
    ensures File(app, waterKey) != File(app, parksKey) ==>
      var water := LayerRead(app.store, waterKey, w.water);
      var parks := LayerRead(app.store, parksKey, w.parks);
      && (water.Err? ==> s.result == Err(water.error))
      && (water.Ok? && parks.Err? ==> s.result == Err(parks.error))
      && (water.Ok? && parks.Ok? ==> s.result == Ok((water.value, parks.value)))
    // only the two layers' files may change
    ensures s.app.store.digest == app.store.digest
    ensures forall k :: File(app, k) != File(app, waterKey) && File(app, k) != File(app, parksKey) ==>
      C.Get(s.app.store, k) == C.Get(app.store, k)
    // and what the two layers' files hold afterwards
    ensures File(app, waterKey) != File(app, parksKey) ==>
      forall k :: C.Get(s.app.store, k) == LayersAfter(app.store, w, waterKey, parksKey, k)
  {
    var water := FetchLayer(app, waterKey, w.waterAt, w.water, w.waterWrite);
    if water.result.Err? {
      WaterFailedAfter(app.store, water.app.store, w, waterKey, parksKey);
      return Step(water.app, water.slept, Err(water.result.error));
    }
    var parks := FetchLayer(water.app, parksKey, w.parksAt, w.parks, w.parksWrite);
    BothLayersAfter(app.store, water.app.store, parks.app.store, w, waterKey, parksKey);
    if File(app, waterKey) != File(app, parksKey) {
      C.ReadsAsBefore(app.store, water.app.store, waterKey, parksKey);
    }
    if parks.result.Err? {
      return Step(parks.app, water.slept + parks.slept, Err(parks.result.error));
    }
    s := Step(parks.app, water.slept + parks.slept, Ok((water.result.value, parks.result.value)));
  }

  /** The network failed: only its file may have changed, and the map data
      is over. */
  lemma NetworkFailedAfter(s: C.Store<Payload>, t: C.Store<Payload>, w: World,
                           graphKey: string, waterKey: string, parksKey: string)
    requires C.OnlyTouches(s, t, graphKey)
    requires C.Get(t, graphKey) == F.ReadAfter(s, graphKey, MapNetwork(w.network), w.graphWrite)
    requires NetworkRead(s, graphKey, w.network).Err?
    ensures forall k :: C.Get(t, k) == DataAfter(s, w, graphKey, waterKey, parksKey, k)
  {
    forall k
      ensures C.Get(t, k) == DataAfter(s, w, graphKey, waterKey, parksKey, k)
    {
      ReadsAfterStep(s, t, graphKey, F.ReadAfter(s, graphKey, MapNetwork(w.network), w.graphWrite), k);
    }
  }

  /** The network, then the layers, in three files: each file reads as its
      own fetch left it. */
  lemma NetworkThenLayersAfter(s: C.Store<Payload>, t1: C.Store<Payload>, t2: C.Store<Payload>, w: World,
                               graphKey: string, waterKey: string, parksKey: string)
    requires C.OnlyTouches(s, t1, graphKey)
    requires C.Get(t1, graphKey) == F.ReadAfter(s, graphKey, MapNetwork(w.network), w.graphWrite)
    requires NetworkRead(s, graphKey, w.network).Ok?
    requires s.digest(graphKey) != s.digest(waterKey) && s.digest(graphKey) != s.digest(parksKey)
    requires s.digest(waterKey) != s.digest(parksKey)
    requires t1.digest == s.digest
    requires forall k :: C.Get(t2, k) == LayersAfter(t1, w, waterKey, parksKey, k)
    ensures forall k :: C.Get(t2, k) == DataAfter(s, w, graphKey, waterKey, parksKey, k)
  {
    var kept := F.ReadAfter(s, graphKey, MapNetwork(w.network), w.graphWrite);
    C.ReadsAsBefore(s, t1, graphKey, waterKey);
    C.ReadsAsBefore(s, t1, graphKey, parksKey);
    forall k
      ensures C.Get(t2, k) == DataAfter(s, w, graphKey, waterKey, parksKey, k)
    {
      ReadsAfterStep(s, t1, graphKey, kept, k);
      assert C.Get(t2, k) == LayersAfter(t1, w, waterKey, parksKey, k);
    }
  }

  /** The three downloads of `generate_poster` under their keys: the street
      network, then water, then parks. */
  method FetchAll(app: App, w: World, graphKey: string, waterKey: string, parksKey: string) returns (s: Step<MapData>)
    ensures SameSetup(s.app, app) && s.app.geocoding == app.geocoding
    ensures s.slept >= 0.0
    ensures s.result == Err(NoStreetNetwork) ==> s.app.features == app.features
    ensures C.Get(app.store, graphKey).Miss? && w.network.None? ==> s.result == Err(NoStreetNetwork)
    ensures C.Get(app.store, graphKey).Hit? && C.Get(app.store, waterKey).Hit? && C.Get(app.store, parksKey).Hit? ==>
      s.app == app && s.slept == 0.0
    ensures (File(app, graphKey) != File(app, waterKey) && File(app, graphKey) != File(app, parksKey)
             && File(app, waterKey) != File(app, parksKey)) ==>
      s.result == PlannedAt(app.store, w, graphKey, waterKey, parksKey)
    // what the cache holds afterwards
    ensures s.app.store.digest == app.store.digest
    ensures (File(app, graphKey) != File(app, waterKey) && File(app, graphKey) != File(app, parksKey)
             && File(app, waterKey) != File(app, parksKey)) ==>
      forall k :: C.Get(s.app.store, k) == DataAfter(app.store, w, graphKey, waterKey, parksKey, k)
  {
    var network := FetchNetwork(app, w, graphKey);
    if network.result.Err? {
      NetworkFailedAfter(app.store, network.app.store, w, graphKey, waterKey, parksKey);
      return Step(network.app, network.slept, Err(network.result.error));
    }
    if File(app, graphKey) != File(app, waterKey) && File(app, graphKey) != File(app, parksKey) {
      C.ReadsAsBefore(app.store, network.app.store, graphKey, waterKey);
      C.ReadsAsBefore(app.store, network.app.store, graphKey, parksKey);
    }
    var layers := FetchLayers(network.app, w, waterKey, parksKey);
    if File(app, graphKey) != File(app, waterKey) && File(app, graphKey) != File(app, parksKey)
       && File(app, waterKey) != File(app, parksKey) {
      NetworkThenLayersAfter(app.store, network.app.store, layers.app.store, w, graphKey, waterKey, parksKey);
    }
    if layers.result.Err? {
      return Step(layers.app, network.slept + layers.slept, Err(layers.result.error));
    }
    var (water, parks) := layers.result.value;
    s := Step(layers.app, network.slept + layers.slept, Ok(MapData(network.result.value, water, parks)));
  }

  /** The three downloads of `generate_poster` around `p`. */
  method FetchData(app: App, w: World, p: Point, distance: int) returns (s: Step<MapData>)
    ensures SameSetup(s.app, app) && s.app.geocoding == app.geocoding
    ensures s.slept >= 0.0
    ensures s.result == Err(NoStreetNetwork) ==> s.app.features == app.features
    ensures C.Get(app.store, GraphKey(app, p, distance)).Miss? && w.network.None? ==> s.result == Err(NoStreetNetwork)
    ensures DataCached(app, p, distance) ==> s.app == app && s.slept == 0.0
    ensures DataApart(app, p, distance) ==> s.result == Planned(app, w, p, distance)
    ensures s.app.store.digest == app.store.digest
    ensures DataApart(app, p, distance) ==> forall k ::
      C.Get(s.app.store, k)
        == DataAfter(app.store, w, GraphKey(app, p, distance), WaterKey(app, p, distance), ParksKey(app, p, distance), k)
  {
    s := FetchAll(app, w, GraphKey(app, p, distance), WaterKey(app, p, distance), ParksKey(app, p, distance));
  }

  /** The end of `generate_poster` once the map data is `data`: its failure,
      or the drawing, which needs the save to work and a projected network
      with nodes and some height to crop to. */
  function Drawing(outputDir: P.Path, w: World, data: Result<MapData, Failure>, city: string, themeName: string,
                   format: string): Result<P.Path, Failure>
  {
    if data.Err? then Err(data.error)
    else
      var nodes := w.project(data.value.graph).nodes;
      if w.saved && nodes != [] && R.Bounds(nodes).ylo != R.Bounds(nodes).yhi
      then Ok(O.GenerateFilename(outputDir, city, themeName, format, w.stamp))
      else Err(RenderFailed)
  }

  /** What `generate_poster` returns, read against the cache as it stands
      before the poster starts: the place, then the map data, then the
      drawing, and the first failure is the one raised. */
  function Outcome(app: App, w: World, city: string, country: string, themeName: string, distance: int, format: string)
    : Result<P.Path, Failure>
  {
    var where := Where(app, w, city, country);
    if where.Err? then Err(where.error)
    else Drawing(app.outputDir, w, Planned(app, w, where.value, distance), city, themeName, format)
  }

  /** Caching the coordinates does not change the map data that follows,
      when the coordinates' file is not one of the data files. */
  lemma PlannedAfterLocate(app: App, next: App, w: World, city: string, country: string, p: Point, distance: int)
    requires SameSetup(next, app)
    requires C.OnlyTouches(app.store, next.store, CoordsKey(city, country))
    requires Apart(app, city, country, p, distance)
    ensures DataApart(next, p, distance)
    ensures Planned(next, w, p, distance) == Planned(app, w, p, distance)
  {
    var key, graphKey, waterKey, parksKey := CoordsKey(city, country), GraphKey(app, p, distance), WaterKey(app, p, distance), ParksKey(app, p, distance);
    assert GraphKey(next, p, distance) == graphKey && WaterKey(next, p, distance) == waterKey && ParksKey(next, p, distance) == parksKey;
    C.ReadsAsBefore(app.store, next.store, key, graphKey);
    C.ReadsAsBefore(app.store, next.store, key, waterKey);
    C.ReadsAsBefore(app.store, next.store, key, parksKey);
    PlannedAtUntouched(app.store, next.store, key, w, graphKey, waterKey, parksKey);
  }

  /** The place is unknown: only the coordinates' file may have changed,
      and the poster is over. */
  lemma LocateFailedAfter(app: App, t: C.Store<Payload>, w: World, city: string, country: string, distance: int)
    requires C.OnlyTouches(app.store, t, CoordsKey(city, country))
    requires C.Get(t, CoordsKey(city, country))
      == F.ReadAfter(app.store, CoordsKey(city, country), CoordsAnswer(w.location), w.geocodeWrite)
    requires Where(app, w, city, country).Err?
    ensures forall k :: C.Get(t, k) == After(app, w, city, country, distance, k)
  {
    var kept := F.ReadAfter(app.store, CoordsKey(city, country), CoordsAnswer(w.location), w.geocodeWrite);
    forall k
      ensures C.Get(t, k) == After(app, w, city, country, distance, k)
    {
      ReadsAfterStep(app.store, t, CoordsKey(city, country), kept, k);
    }
  }

  /** The place is known and its four keys live in four files: the
      coordinates read as the geocoder left them, and the rest as the
      downloads that followed left it. */
  lemma LocatedAfter(app: App, located: App, t: C.Store<Payload>, w: World, city: string, country: string,
                     p: Point, distance: int)
    requires SameSetup(located, app)
    requires C.OnlyTouches(app.store, located.store, CoordsKey(city, country))
    requires C.Get(located.store, CoordsKey(city, country))
      == F.ReadAfter(app.store, CoordsKey(city, country), CoordsAnswer(w.location), w.geocodeWrite)
    requires Where(app, w, city, country) == Ok(p)
    requires Apart(app, city, country, p, distance)
    requires forall k ::
      C.Get(t, k)
        == DataAfter(located.store, w, GraphKey(located, p, distance), WaterKey(located, p, distance),
                     ParksKey(located, p, distance), k)
    ensures forall k :: C.Get(t, k) == After(app, w, city, country, distance, k)
  {
    var coords := CoordsKey(city, country);
    var kept := F.ReadAfter(app.store, coords, CoordsAnswer(w.location), w.geocodeWrite);
    var graphKey, waterKey, parksKey := GraphKey(app, p, distance), WaterKey(app, p, distance), ParksKey(app, p, distance);
    assert GraphKey(located, p, distance) == graphKey && WaterKey(located, p, distance) == waterKey;
    assert ParksKey(located, p, distance) == parksKey;
    forall k
      ensures C.Get(t, k) == After(app, w, city, country, distance, k)
    {
      DataAfterUntouched(app.store, located.store, coords, kept, w, graphKey, waterKey, parksKey, k);
    }
  }

  /** Data fetched after a step that touched only `key`'s file, a file none
      of the data keys live in: `key`'s file reads as that step left it, and
      every other file as if the step had not happened. */
  lemma DataAfterUntouched(s: C.Store<Payload>, t: C.Store<Payload>, key: string, kept: C.Lookup<Payload>, w: World,
                           graphKey: string, waterKey: string, parksKey: string, k: string)
    requires C.OnlyTouches(s, t, key) && C.Get(t, key) == kept
    requires s.digest(key) != s.digest(graphKey) && s.digest(key) != s.digest(waterKey)
    requires s.digest(key) != s.digest(parksKey)
    ensures DataAfter(t, w, graphKey, waterKey, parksKey, k)
      == if s.digest(k) == s.digest(key) then kept else DataAfter(s, w, graphKey, waterKey, parksKey, k)
  {
    ReadsAfterStep(s, t, key, kept, k);
    C.ReadsAsBefore(s, t, key, graphKey);
    C.ReadsAsBefore(s, t, key, waterKey);
    C.ReadsAsBefore(s, t, key, parksKey);
  }

  /** The place is unknown, or its four cache keys live in four files. */
  ghost predicate Separate(app: App, w: World, city: string, country: string, distance: int)
  {
    var where := Where(app, w, city, country);
    where.Ok? ==> Apart(app, city, country, where.value, distance)
  }

  /** A loaded theme's road colour is a valid colour whatever the tier. */
  lemma TierColorValid(t: T.Theme, tier: R.Tier)
    requires T.Validate(t).None?
    ensures T.ValidColor(R.TierColor(t, tier))
  {
    var c := T.ColorFields(t);
    assert T.ValidColor(c[5]) && T.ValidColor(c[6]) && T.ValidColor(c[7]);
    assert T.ValidColor(c[8]) && T.ValidColor(c[9]) && T.ValidColor(c[10]);
  }

  /** The end of `generate_poster`: load the theme, name the file, render
      and save. */
  method Draw(
    app: App, w: World, graph: R.Graph, water: Option<seq<R.Shape>>, parks: Option<seq<R.Shape>>,
    p: Point, city: string, country: string, themeName: string, format: string, countryLabel: Option<string>
  ) returns (result: Result<P.Path, Failure>, drawn: Option<R.Poster>)
    requires Ready(app)
    ensures result.Err? ==> result == Err(RenderFailed) && drawn.None?
    ensures result.Ok? ==>
      && result.value == O.GenerateFilename(app.outputDir, city, themeName, format, w.stamp)
      && drawn.Some? && w.saved
      && drawn.value.background == T.LoadTheme(app.themes, themeName).bg
      && |drawn.value.labels| == 4
      && drawn.value.labels[0].text == Ty.FormatCityName(city)
      && (forall i :: 0 <= i < |drawn.value.edgeColors| ==> T.ValidColor(drawn.value.edgeColors[i]))
    ensures !w.saved ==> result.Err?
    ensures result.Ok? <==> w.saved && R.CropLimits(w.project(graph).nodes, app.figWidth, app.figHeight).Some?
  {
    var theme := T.LoadTheme(app.themes, themeName);
    var path := O.GenerateFilename(app.outputDir, city, themeName, format, w.stamp);
    var projected := w.project(graph);
    var poster := R.Render(app.fonts, app.figWidth, app.figHeight, app.dpi, app.fixed4,
      projected, water, parks, city, country, p, theme, format, countryLabel);
    if poster.None? || !w.saved {
      return Err(RenderFailed), None;
    }
    forall i | 0 <= i < |poster.value.edgeColors|
      ensures T.ValidColor(poster.value.edgeColors[i])
    {
      TierColorValid(theme, R.TierOf(R.Highway(projected.edges[i])));
    }
    drawn := poster;
    result := Ok(path);
  }

  /** `generate_poster` once the place is known: download, then draw. */
  method PosterAt(
    app: App, w: World, p: Point, city: string, country: string, themeName: string, distance: int,
    format: string, countryLabel: Option<string>
  ) returns (next: App, slept: real, result: Result<P.Path, Failure>, drawn: Option<R.Poster>)
    requires Ready(app)
    ensures SameSetup(next, app) && Ready(next) && next.geocoding == app.geocoding
    ensures slept >= 0.0
    ensures result == Err(NoStreetNetwork) ==> next.features == app.features && drawn.None?
    ensures result.Ok? ==>
      && result.value == O.GenerateFilename(app.outputDir, city, themeName, format, w.stamp)
      && drawn.Some? && w.saved
      && drawn.value.background == T.LoadTheme(app.themes, themeName).bg
      && |drawn.value.labels| == 4
      && drawn.value.labels[0].text == Ty.FormatCityName(city)
      && (forall i :: 0 <= i < |drawn.value.edgeColors| ==> T.ValidColor(drawn.value.edgeColors[i]))
    ensures !w.saved ==> result.Err?
    ensures DataCached(app, p, distance) ==> next == app && slept == 0.0
    ensures DataApart(app, p, distance) ==>
      result == Drawing(app.outputDir, w, Planned(app, w, p, distance), city, themeName, format)
    // drawing leaves the cache as the downloads left it
    ensures next.store.digest == app.store.digest
    ensures DataApart(app, p, distance) ==> forall k ::
      C.Get(next.store, k)
        == DataAfter(app.store, w, GraphKey(app, p, distance), WaterKey(app, p, distance), ParksKey(app, p, distance), k)
  {
    var data := FetchData(app, w, p, distance);
    next, slept := data.app, data.slept;
    if data.result.Err? {
      return next, slept, Err(data.result.error), None;
    }
    var m := data.result.value;
    result, drawn := Draw(next, w, m.graph, m.water, m.parks, p, city, country, themeName, format, countryLabel);
  }

  /** `generate_poster` once the geocoder, starting from `app`, has left
      the state `located` and found the place `p`. */
  method PosterFrom(
    app: App, located: App, w: World, p: Point, city: string, country: string, themeName: string, distance: int,
    format: string, countryLabel: Option<string>
  ) returns (next: App, slept: real, result: Result<P.Path, Failure>, drawn: Option<R.Poster>)
    requires Ready(app) && SameSetup(located, app)
    requires C.OnlyTouches(app.store, located.store, CoordsKey(city, country))
    requires C.Get(located.store, CoordsKey(city, country))
      == F.ReadAfter(app.store, CoordsKey(city, country), CoordsAnswer(w.location), w.geocodeWrite)
    requires Where(app, w, city, country) == Ok(p)
    ensures SameSetup(next, app) && Ready(next) && next.geocoding == located.geocoding
    ensures slept >= 0.0
    ensures result == Err(NoStreetNetwork) ==> next.features == located.features && drawn.None?
    ensures result.Ok? ==>
      && result.value == O.GenerateFilename(app.outputDir, city, themeName, format, w.stamp)
      && drawn.Some? && w.saved
      && drawn.value.background == T.LoadTheme(app.themes, themeName).bg
      && |drawn.value.labels| == 4
      && drawn.value.labels[0].text == Ty.FormatCityName(city)
      && (forall i :: 0 <= i < |drawn.value.edgeColors| ==> T.ValidColor(drawn.value.edgeColors[i]))
    ensures !w.saved ==> result.Err?
    ensures DataCached(located, p, distance) ==> next == located && slept == 0.0
    ensures next.store.digest == app.store.digest
    ensures Apart(app, city, country, p, distance) ==>
      && result == Drawing(app.outputDir, w, Planned(app, w, p, distance), city, themeName, format)
      && forall k :: C.Get(next.store, k) == After(app, w, city, country, distance, k)
  {
    if Apart(app, city, country, p, distance) {
      PlannedAfterLocate(app, located, w, city, country, p, distance);
    }
    next, slept, result, drawn := PosterAt(located, w, p, city, country, themeName, distance, format, countryLabel);
    if Apart(app, city, country, p, distance) {
      LocatedAfter(app, located, next.store, w, city, country, p, distance);
    }
  }

  /** `PosterGenerator.generate_poster`: geocode, download, draw, save. */
  method GeneratePoster(
    app: App, w: World, city: string, country: string, themeName: string, distance: int,
    format: string, countryLabel: Option<string>
  ) returns (next: App, slept: real, result: Result<P.Path, Failure>, drawn: Option<R.Poster>)
    requires Ready(app)
    ensures SameSetup(next, app) && Ready(next)
    ensures slept >= 0.0
    // a geocoding failure comes first: no map data is requested
    ensures C.Get(app.store, CoordsKey(city, country)).Miss? && !w.location.Location? ==>
      && result == Err(GeocodingFailed(G.Query(city, country)))
      && next.graphs == app.graphs && next.features == app.features && drawn.None?
    // no street network: the features are not requested
    ensures result == Err(NoStreetNetwork) ==> next.features == app.features && drawn.None?
    // success: the file name of output.py, drawn in the loaded theme's colours
    ensures result.Ok? ==>
      && result.value == O.GenerateFilename(app.outputDir, city, themeName, format, w.stamp)
      && drawn.Some? && w.saved
      && drawn.value.background == T.LoadTheme(app.themes, themeName).bg
      && |drawn.value.labels| == 4
      && drawn.value.labels[0].text == Ty.FormatCityName(city)
      && (forall i :: 0 <= i < |drawn.value.edgeColors| ==> T.ValidColor(drawn.value.edgeColors[i]))
    ensures !w.saved ==> result.Err?
    // everything cached: no request, no wait, nothing changes
    ensures Warm(app, city, country, distance) ==> next == app && slept == 0.0
    // exactly the outcome the cache and the world dictate
    ensures Separate(app, w, city, country, distance) ==>
      result == Outcome(app, w, city, country, themeName, distance, format)
    // and leaves the cache as the geocoder and the downloads left it
    ensures next.store.digest == app.store.digest
    ensures Separate(app, w, city, country, distance) ==>
      forall k :: C.Get(next.store, k) == After(app, w, city, country, distance, k)
  {
    var located := Locate(app, w, city, country);
    if located.result.Err? {
      LocateFailedAfter(app, located.app.store, w, city, country, distance);
      return located.app, located.slept, Err(located.result.error), None;
    }
    var s;
    next, s, result, drawn := PosterFrom(app, located.app, w, located.result.value, city, country, themeName,
      distance, format, countryLabel);
    slept := located.slept + s;
  }

  /** `turn` is the outcome the cache and the world dictate for a poster
      that begins from `start`, whenever its files are apart. */
  ghost predicate Yields(start: App, w: World, city: string, country: string, themeName: string, distance: int,
                         format: string, turn: Result<P.Path, Failure>)
  {
    Separate(start, w, city, country, distance) ==> turn == Outcome(start, w, city, country, themeName, distance, format)
  }

  /** `next` is the state a poster that began from `app` leaves behind: the
      same setup and cache directory, and, when the poster's files are
      apart, every key reading as `After` says. */
  ghost predicate Leaves(app: App, w: World, city: string, country: string, distance: int, next: App)
  {
    && SameSetup(next, app) && next.store.digest == app.store.digest
    && (Separate(app, w, city, country, distance) ==>
          forall k :: C.Get(next.store, k) == After(app, w, city, country, distance, k))
  }

  /** A poster that succeeded, with every download answered and every
      write stored, leaves all it needs in the cache: the next poster of
      the same place is drawn from the cache alone (`Warm`). */
  lemma CachedForNext(app: App, w: World, city: string, country: string, distance: int, next: App)
    requires Leaves(app, w, city, country, distance, next) && Separate(app, w, city, country, distance)
    requires Where(app, w, city, country).Ok?
    requires
      var data := Planned(app, w, Where(app, w, city, country).value, distance);
      data.Ok? && data.value.water.Some? && data.value.parks.Some?
    requires w.geocodeWrite.Written? && w.graphWrite.Written? && w.waterWrite.Written? && w.parksWrite.Written?
    ensures Warm(next, city, country, distance)
  {
    var p := Where(app, w, city, country).value;
    var coords, graphKey, waterKey, parksKey :=
      CoordsKey(city, country), GraphKey(app, p, distance), WaterKey(app, p, distance), ParksKey(app, p, distance);
    assert C.Get(next.store, coords) == After(app, w, city, country, distance, coords) == C.Hit(Coords(p));
    assert GraphKey(next, p, distance) == graphKey && WaterKey(next, p, distance) == waterKey;
    assert ParksKey(next, p, distance) == parksKey;
    DataStored(app.store, w, graphKey, waterKey, parksKey);
    assert C.Get(next.store, graphKey) == After(app, w, city, country, distance, graphKey);
    assert C.Get(next.store, waterKey) == After(app, w, city, country, distance, waterKey);
    assert C.Get(next.store, parksKey) == After(app, w, city, country, distance, parksKey);
  }

  /** Map data read in full, with both layers found and every write
      stored, is in the cache afterwards under all three keys. */
  lemma DataStored(store: C.Store<Payload>, w: World, graphKey: string, waterKey: string, parksKey: string)
    requires store.digest(graphKey) != store.digest(waterKey) && store.digest(graphKey) != store.digest(parksKey)
    requires store.digest(waterKey) != store.digest(parksKey)
    requires
      var data := PlannedAt(store, w, graphKey, waterKey, parksKey);
      data.Ok? && data.value.water.Some? && data.value.parks.Some?
    requires w.graphWrite.Written? && w.waterWrite.Written? && w.parksWrite.Written?
    ensures DataAfter(store, w, graphKey, waterKey, parksKey, graphKey).Hit?
    ensures DataAfter(store, w, graphKey, waterKey, parksKey, waterKey).Hit?
    ensures DataAfter(store, w, graphKey, waterKey, parksKey, parksKey).Hit?
  {
  }

  /** One turn of `generate_all_themes`'s loop: the path it appends. */
  method PosterPath(
    app: App, w: World, city: string, country: string, themeName: string, distance: int,
    format: string, countryLabel: Option<string>
  ) returns (next: App, result: Result<P.Path, Failure>)
    requires Ready(app)
    ensures SameSetup(next, app) && Ready(next)
    ensures result.Ok? ==> result.value == O.GenerateFilename(app.outputDir, city, themeName, format, w.stamp)
    ensures Yields(app, w, city, country, themeName, distance, format, result)
    ensures Leaves(app, w, city, country, distance, next)
  {
    var slept, drawn;
    next, slept, result, drawn := GeneratePoster(app, w, city, country, themeName, distance, format, countryLabel);
  }

  /** `ok` holds of each index with its pair of entries. */
  ghost predicate Each<A, B>(xs: seq<A>, ys: seq<B>, ok: (nat, A, B) -> bool)
  {
    |xs| == |ys| && forall i :: 0 <= i < |xs| ==> ok(i, xs[i], ys[i])
  }

  /** A pair that satisfies `ok` at the next index extends `Each`. */
  lemma EachSnoc<A, B>(xs: seq<A>, ys: seq<B>, ok: (nat, A, B) -> bool, x: A, y: B)
    requires Each(xs, ys, ok) && ok(|xs|, x, y)
    ensures Each(xs + [x], ys + [y], ok)
  {
    assert forall i :: 0 <= i < |xs| ==> (xs + [x])[i] == xs[i] && (ys + [y])[i] == ys[i];
  }

  /** Turn `i` began from `start`, a state with `app`'s setup, and
      yielded `turn` for the theme `themes[i]`. */
  ghost function TurnOf(app: App, themes: seq<string>, worlds: nat -> World, city: string, country: string,
                        distance: int, format: string): (nat, App, Result<P.Path, Failure>) -> bool
  {
    (i: nat, start: App, turn: Result<P.Path, Failure>) =>
      && i < |themes| && SameSetup(start, app) && Ready(start)
      && Yields(start, worlds(i), city, country, themes[i], distance, format, turn)
  }

  /** `turns[i]` is the poster attempted for `themes[i]`, begun from
      `starts[i]`. */
  ghost predicate Attempted(app: App, themes: seq<string>, worlds: nat -> World, city: string, country: string,
                            distance: int, format: string, starts: seq<App>, turns: seq<Result<P.Path, Failure>>)
  {
    |turns| <= |themes| && Each(starts, turns, TurnOf(app, themes, worlds, city, country, distance, format))
  }

  /** One more attempt extends the record. */
  lemma AttemptedSnoc(app: App, themes: seq<string>, worlds: nat -> World, city: string, country: string,
                      distance: int, format: string, starts: seq<App>, turns: seq<Result<P.Path, Failure>>,
                      start: App, turn: Result<P.Path, Failure>)
    requires Attempted(app, themes, worlds, city, country, distance, format, starts, turns)
    requires |turns| < |themes| && SameSetup(start, app) && Ready(start)
    requires Yields(start, worlds(|turns|), city, country, themes[|turns|], distance, format, turn)
    ensures Attempted(app, themes, worlds, city, country, distance, format, starts + [start], turns + [turn])
  {
    var ok := TurnOf(app, themes, worlds, city, country, distance, format);
    assert ok(|turns|, start, turn);
    EachSnoc(starts, turns, ok, start, turn);
  }

  /** The record read turn by turn. */
  lemma AttemptedEach(app: App, themes: seq<string>, worlds: nat -> World, city: string, country: string,
                      distance: int, format: string, starts: seq<App>, turns: seq<Result<P.Path, Failure>>)
    requires Attempted(app, themes, worlds, city, country, distance, format, starts, turns)
    ensures |starts| == |turns| <= |themes|
    ensures forall i :: 0 <= i < |turns| ==>
      && SameSetup(starts[i], app)
      && Yields(starts[i], worlds(i), city, country, themes[i], distance, format, turns[i])
  {
    var ok := TurnOf(app, themes, worlds, city, country, distance, format);
    forall i | 0 <= i < |turns|
      ensures SameSetup(starts[i], app)
      ensures Yields(starts[i], worlds(i), city, country, themes[i], distance, format, turns[i])
    {
      assert ok(i, starts[i], turns[i]);
    }
  }

  /** The loop of `generate_all_themes` after `|paths|` posters, all of
      them made, the last one leaving the state `next`; `Attempted` holds
      the rest of the record. */
  ghost predicate Progress(app: App, themes: seq<string>, worlds: nat -> World, city: string, country: string,
                           distance: int, format: string, next: App, paths: seq<P.Path>,
                           starts: seq<App>, turns: seq<Result<P.Path, Failure>>)
  {
    && |paths| == |starts| == |turns| <= |themes|
    && SameSetup(next, app) && Ready(next)
    && (turns == [] ==> next == app)
    && (turns != [] ==> starts[0] == app)
    && (forall j :: 0 <= j < |turns| ==> turns[j] == Ok(paths[j]))
    && (forall j :: 0 <= j < |paths| ==>
         paths[j] == O.GenerateFilename(app.outputDir, city, themes[j], format, worlds(j).stamp))
  }

  /** A made poster extends the record. */
  lemma ProgressSnoc(app: App, themes: seq<string>, worlds: nat -> World, city: string, country: string,
                     distance: int, format: string, next: App, paths: seq<P.Path>,
                     starts: seq<App>, turns: seq<Result<P.Path, Failure>>, after: App, r: Result<P.Path, Failure>)
    requires Progress(app, themes, worlds, city, country, distance, format, next, paths, starts, turns)
    requires |paths| < |themes| && SameSetup(after, app) && Ready(after)
    requires r.Ok? ==> r.value == O.GenerateFilename(app.outputDir, city, themes[|paths|], format, worlds(|paths|).stamp)
    ensures r.Ok? ==>
      Progress(app, themes, worlds, city, country, distance, format, after, paths + [r.value], starts + [next], turns + [r])
  {
    var i := |paths|;
    var starts', turns' := starts + [next], turns + [r];
    assert starts'[0] == (if i == 0 then next else starts[0]);
    assert turns'[i] == r && forall j :: 0 <= j < i ==> turns'[j] == turns[j];
    if r.Ok? {
      var paths' := paths + [r.value];
      assert paths'[i] == r.value && forall j :: 0 <= j < i ==> paths'[j] == paths[j];
    }
  }

  /** Poster `i` began from `start` and left `end` behind. */
  ghost function LeftBehind(worlds: nat -> World, city: string, country: string, distance: int): (nat, App, App) -> bool
  {
    (i: nat, start: App, end: App) => Leaves(start, worlds(i), city, country, distance, end)
  }

  /** Each poster left `ends[i]` behind, the next poster began from it, and
      the last one left `last`. */
  ghost predicate Chained(worlds: nat -> World, city: string, country: string, distance: int,
                          starts: seq<App>, ends: seq<App>, last: App)
  {
    && Each(starts, ends, LeftBehind(worlds, city, country, distance))
    && (starts != [] ==> ends == starts[1..] + [last])
  }

  /** The poster begun from `last` extends the chain. */
  lemma ChainedSnoc(worlds: nat -> World, city: string, country: string, distance: int,
                    starts: seq<App>, ends: seq<App>, last: App, after: App)
    requires Chained(worlds, city, country, distance, starts, ends, last)
    requires Leaves(last, worlds(|starts|), city, country, distance, after)
    ensures Chained(worlds, city, country, distance, starts + [last], ends + [after], after)
  {
    var ok := LeftBehind(worlds, city, country, distance);
    assert ok(|starts|, last, after);
    EachSnoc(starts, ends, ok, last, after);
    if starts != [] {
      assert (starts + [last])[1..] == starts[1..] + [last];
    }
  }

  /** The chain read poster by poster. */
  lemma ChainedEach(worlds: nat -> World, city: string, country: string, distance: int,
                    starts: seq<App>, ends: seq<App>, last: App)
    requires Chained(worlds, city, country, distance, starts, ends, last)
    ensures |ends| == |starts|
    ensures forall i :: 0 <= i < |starts| ==> Leaves(starts[i], worlds(i), city, country, distance, ends[i])
  {
    var ok := LeftBehind(worlds, city, country, distance);
    forall i | 0 <= i < |starts|
      ensures Leaves(starts[i], worlds(i), city, country, distance, ends[i])
    {
      assert ok(i, starts[i], ends[i]);
    }
  }

  /** One turn of the loop of `generate_all_themes`, from the state `next`. */
  method Attempt(
    app: App, themes: seq<string>, worlds: nat -> World, city: string, country: string, distance: int,
    format: string, countryLabel: Option<string>, next: App, paths: seq<P.Path>,
    ghost starts: seq<App>, ghost turns: seq<Result<P.Path, Failure>>, ghost ends: seq<App>
  ) returns (after: App, r: Result<P.Path, Failure>, ghost starts': seq<App>, ghost turns': seq<Result<P.Path, Failure>>,
             ghost ends': seq<App>)
    requires Progress(app, themes, worlds, city, country, distance, format, next, paths, starts, turns)
    requires Attempted(app, themes, worlds, city, country, distance, format, starts, turns)
    requires Chained(worlds, city, country, distance, starts, ends, next)
    requires |paths| < |themes|
    ensures starts' == starts + [next] && turns' == turns + [r] && ends' == ends + [after]
    ensures Chained(worlds, city, country, distance, starts', ends', after)
    ensures SameSetup(after, app) && Ready(after)
    ensures Attempted(app, themes, worlds, city, country, distance, format, starts', turns')
    ensures r.Ok? ==> Progress(app, themes, worlds, city, country, distance, format, after, paths + [r.value], starts', turns')
  {
    after, r := PosterPath(next, worlds(|paths|), city, country, themes[|paths|], distance, format, countryLabel);
    AttemptedSnoc(app, themes, worlds, city, country, distance, format, starts, turns, next, r);
    ProgressSnoc(app, themes, worlds, city, country, distance, format, next, paths, starts, turns, after, r);
    ChainedSnoc(worlds, city, country, distance, starts, ends, next, after);
    starts', turns', ends' := starts + [next], turns + [r], ends + [after];
  }

  /** The loop of `generate_all_themes`: one poster per theme name, in
      order; the first failure propagates and ends the run. `worlds(i)` is
      what the i-th poster meets. `turns` are the posters attempted,
      `starts` the state each of them began from and `ends` the state each
      left behind, which is where the next one began. */
  method GenerateEach(
    app: App, themes: seq<string>, worlds: nat -> World, city: string, country: string, distance: int,
    format: string, countryLabel: Option<string>
  ) returns (next: App, result: Result<seq<P.Path>, Failure>, ghost starts: seq<App>,
             ghost turns: seq<Result<P.Path, Failure>>, ghost ends: seq<App>)
    requires Ready(app)
    ensures SameSetup(next, app) && Ready(next)
    ensures themes == [] ==> next == app && result == Ok([])
    ensures |starts| > 0 ==> starts[0] == app
    // each poster begins where the previous one left off
    ensures |ends| == |starts|
    ensures forall i :: 0 <= i < |starts| ==> Leaves(starts[i], worlds(i), city, country, distance, ends[i])
    ensures |starts| > 0 ==> ends == starts[1..] + [next]
    // every attempt yields what its own cache and world dictate
    ensures |starts| == |turns| <= |themes|
    ensures forall i :: 0 <= i < |turns| ==>
      && SameSetup(starts[i], app)
      && Yields(starts[i], worlds(i), city, country, themes[i], distance, format, turns[i])
    // only the last attempt may fail, and its failure is the run's
    ensures forall i :: 0 <= i < |turns| - 1 ==> turns[i].Ok?
    ensures result.Err? <==> |turns| > 0 && turns[|turns| - 1].Err?
    ensures result.Err? ==> result.error == turns[|turns| - 1].error
    ensures result.Ok? ==>
      && |turns| == |themes| && |result.value| == |themes|
      && forall i :: 0 <= i < |themes| ==>
        && turns[i] == Ok(result.value[i])
        && result.value[i] == O.GenerateFilename(app.outputDir, city, themes[i], format, worlds(i).stamp)
  {
    next, starts, turns, ends := app, [], [], [];
    var paths: seq<P.Path> := [];
    while |paths| < |themes|
      invariant Progress(app, themes, worlds, city, country, distance, format, next, paths, starts, turns)
      invariant Attempted(app, themes, worlds, city, country, distance, format, starts, turns)
      invariant Chained(worlds, city, country, distance, starts, ends, next)
      decreases |themes| - |paths|
    {
      var r;
      ghost var before := turns;
      next, r, starts, turns, ends := Attempt(app, themes, worlds, city, country, distance, format, countryLabel,
        next, paths, starts, turns, ends);
      if r.Err? {
        assert forall i :: 0 <= i < |turns| - 1 ==> turns[i] == before[i];
        AttemptedEach(app, themes, worlds, city, country, distance, format, starts, turns);
        ChainedEach(worlds, city, country, distance, starts, ends, next);
        return next, Err(r.error), starts, turns, ends;
      }
      paths := paths + [r.value];
    }
    AttemptedEach(app, themes, worlds, city, country, distance, format, starts, turns);
    ChainedEach(worlds, city, country, distance, starts, ends, next);
    result := Ok(paths);
  }

  /** `PosterGenerator.generate_all_themes`: every theme `list_themes`
      reports, in its order. */
  method GenerateAllThemes(
    app: App, worlds: nat -> World, city: string, country: string, distance: int,
    format: string, countryLabel: Option<string>
  ) returns (next: App, result: Result<seq<P.Path>, Failure>, ghost starts: seq<App>,
             ghost turns: seq<Result<P.Path, Failure>>, ghost ends: seq<App>)
    requires Ready(app)
    ensures SameSetup(next, app) && Ready(next)
    ensures T.ListThemes(app.themes) == [] ==> next == app && result == Ok([])
    ensures |starts| > 0 ==> starts[0] == app
    ensures |ends| == |starts|
    ensures forall i :: 0 <= i < |starts| ==> Leaves(starts[i], worlds(i), city, country, distance, ends[i])
    ensures |starts| > 0 ==> ends == starts[1..] + [next]
    ensures |starts| == |turns| <= |T.ListThemes(app.themes)|
    ensures forall i :: 0 <= i < |turns| ==>
      && SameSetup(starts[i], app)
      && Yields(starts[i], worlds(i), city, country, T.ListThemes(app.themes)[i], distance, format, turns[i])
    ensures forall i :: 0 <= i < |turns| - 1 ==> turns[i].Ok?
    ensures result.Err? <==> |turns| > 0 && turns[|turns| - 1].Err?
    ensures result.Err? ==> result.error == turns[|turns| - 1].error
    ensures result.Ok? ==>
      && |turns| == |T.ListThemes(app.themes)| && |result.value| == |T.ListThemes(app.themes)|
      && forall i :: 0 <= i < |result.value| ==>
        && turns[i] == Ok(result.value[i])
        && result.value[i] == O.GenerateFilename(app.outputDir, city, T.ListThemes(app.themes)[i], format, worlds(i).stamp)
  {
    next, result, starts, turns, ends := GenerateEach(app, T.ListThemes(app.themes), worlds, city, country, distance, format, countryLabel);
  }
}
