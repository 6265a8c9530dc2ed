# City map poster generator — a Dafny model

This project models the core of a command-line tool that draws a map poster
of a city. The tool works in these steps:

1. It geocodes "city, country" to a latitude and longitude.
2. It downloads the street network and the water and park polygons around
   that point from OpenStreetMap.
3. It loads a colour theme from a JSON file.
4. It styles the roads by their place in the road hierarchy.
5. It crops the map to the poster's aspect ratio, adds two fades and four
   text labels, and saves the poster under a time-stamped name.

Every download goes through one on-disk cache, keyed by an MD5 digest of a
cache key. Each kind of request has its own throttle.

The model is a set of pure functions and a few methods, one module per
source file:

| module | source | what it holds |
|---|---|---|
| `Cache` | cache.py | the cache directory as a map from file name to entry; `get`, `set`, `clear` |
| `RateLimit`, `Fetch` | geocoding.py, data_fetching.py | the throttles and the shared check-cache/throttle/ask/store sequence |
| `Geocoding` | geocoding.py | the coordinates cache key and `geocode` |
| `DataFetching` | data_fetching.py | the graph and features cache keys, the two throttles, `fetch_graph` and `fetch_features` |
| `Themes` | theme.py | theme fields and defaults, colour validation, loading with fallback, listing, theme info |
| `Typography` | typography.py | the font set and its fallback, the city font size, the label fonts, the two formatters |
| `Renderer` | renderer.py | road styling, the crop window, the fades, the labels, the polygon layers, the save options |
| `Output` | output.py | the time stamp and the poster's file name |
| `Config` | config.py | directory resolution, defaults, `validate`, `load_config` |
| `Poster`, `Cli` | create_map_poster.py | `generate_poster`, `generate_all_themes`, `create_app`, `list_themes`, `main` |
| `Common`, `Text`, `StringOrder`, `Paths` | — | options and results; ASCII case mapping, split and join; Python's string order and `sorted`; the part of `pathlib` the program uses |

Everything outside the program is a parameter:

- **Clock.** Each request's clock reading is given, and a sleep lasts exactly
  as long as asked.
- **Providers.** The geocoder's and OpenStreetMap's answers are given.
- **Files.** Whether a cache write succeeds, which files and directories
  exist or can be created, and what a directory listing yields are given.
- **Hashing.** The MD5 digest is a function-valued field of the cache.
- **Float formatting.** Python's `str` of a float (`repr`, used in cache keys)
  and its `:.4f` formatting (`fixed4`, used on the poster) are parameters.
- **Timestamp and projection.** The time stamp of a file name and OSMnx's
  projection are given.
- **Saving.** Whether saving succeeds is given.

For each poster, a `Poster.World` collects these inputs.

A render does not draw anything. It returns the `Renderer.Poster` plan that
matplotlib would draw.

One place where the model follows the code rather than the prose:
`--distance` defaults to 12000 metres in the argument parser. Its help text
and the configuration's `default_distance` both say 29000.

## Model

| member | source | states |
|---|---|---|
| Cache.FileName | cache.py:34-43 | A cache file name is the key's digest followed by `.pkl`; removing the extension gives back the digest. |
| Cache.Get | cache.py:45-67 | A key misses exactly when its file does not exist; the read raises exactly when the file exists but cannot be unpickled; a hit returns the value stored in the key's file. |
| Cache.Set | cache.py:69-86 | Raises exactly when the write fails. After a good write the key reads back the value. A failed dump leaves an unreadable file; a failed open changes nothing. No other file changes, and no key with a different file name reads differently. |
| Cache.Clear | cache.py:101-111 | Removes exactly the `.pkl` files, keeps every other file, and leaves every key missing. |
| Cache.DigestCollisionShares | cache.py:34-43 | Two keys with the same digest share one file: writing one makes the other read the written value. |
| RateLimit.Wait | geocoding.py:54-60 | The sleep is never negative; the first request never sleeps; a later one goes out at the later of now and the previous request plus the spacing, and that moment becomes the new stamp. |
| RateLimit.IssueTimes | geocoding.py:54-60 | Over a run of requests, none goes out before it arrives, the first waits out any earlier stamp, and consecutive requests are at least the spacing apart. |
| Fetch.CachedFetch | geocoding.py:87-125 | A hit or a failed cache read neither waits nor asks nor changes the cache. A miss waits out the throttle, stamps the moment the request goes out, and asks. A provider failure caches nothing. A provider answer is returned whether or not caching it works, with a warning exactly when the write fails. Only the key's own cache file can change, and afterwards the key reads as `Fetch.ReadAfter` says: the answer when it was written, a corrupt file when the dump failed, still nothing when the file could not be opened, and otherwise as before. |
| Fetch.FetchedThenServedFromCache | data_fetching.py:134-154 | After a successful fetch and write, the same key is served from the cache with no wait, no request and no change, whatever the provider would say. |
| Geocoding.CacheKeyIgnoresCase | geocoding.py:62-72 | Upper- or lower-casing city and country does not change the coordinates key. |
| Geocoding.KeyFields | geocoding.py:62-72 | For names without `_`, the key splits on `_` into `coords`, the lower-cased city and the lower-cased country. |
| Geocoding.CacheKeyDecodes | geocoding.py:62-72 | For names without `_`, equal keys mean the same city and country up to case. |
| Geocoding.CacheKeyCollides | geocoding.py:62-72 | With `_` in the names the key is ambiguous: ("a_b", "c") and ("a", "b_c") share a key, so one place is served the other's cached coordinates. |
| Geocoding.Geocode | geocoding.py:74-125 | A hit returns the cached coordinates without waiting. A failed cache read escapes. A miss is throttled and stamped. No match or a provider error raises `ValueError` naming the query and caches nothing. A match is returned even when caching it fails, which is only a warning. Only the query's cache file can change, and afterwards it reads as `Fetch.ReadAfter` says. |
| DataFetching.RateLimitWait | data_fetching.py:70-91 | The graph and features throttles are independent: waiting on one sleeps the remaining spacing of that class only and re-stamps only that class's timer. |
| DataFetching.GraphKeyFields | data_fetching.py:93-104 | The graph key splits into `graph`, the latitude, the longitude and the distance. |
| DataFetching.GraphKeyEqual | data_fetching.py:93-104 | Two graph keys are equal exactly when the printed latitudes, the printed longitudes and the distances are equal. |
| DataFetching.GraphKeyInjective | data_fetching.py:93-104 | When `repr` prints the two points' coordinates differently unless they are equal, equal graph keys mean the same point and distance. |
| DataFetching.TagKeys | data_fetching.py:121 | The tag names in the dictionary's order, one per entry. |
| DataFetching.FeaturesKeyDependsOnlyOnTagKeys | data_fetching.py:106-122 | The features key sees the tag names only as a sorted multiset: reordering the tags does not change it. |
| DataFetching.FeaturesKeyIgnoresValues | data_fetching.py:106-122 | Tag values are not in the key: `natural=water` and `natural=wood` share a cache entry. |
| DataFetching.FeaturesKeyFields | data_fetching.py:106-122 | The features key begins with the feature name, latitude, longitude and distance as separate `_` fields. |
| DataFetching.FeaturesKeyDeterminesRequest | data_fetching.py:106-122 | For feature names without `_`, and when `repr` prints the two points' coordinates differently unless they are equal, equal features keys mean the same feature name, point and distance. |
| DataFetching.FetchAs | data_fetching.py:124-198 | The shared behaviour of `fetch_graph` and `fetch_features`. A hit is returned untouched; a failed cache read escapes. A miss sleeps exactly the class's remaining spacing, leaves the other class's throttle alone, returns `None` when OSMnx raises, and otherwise returns the answer, with a warning exactly when the write fails. Only the key's own cache file can change, and afterwards it reads as `Fetch.ReadAfter` says. |
| Config.DefaultPath | config.py:12-27 | The environment variable's path when it is set, else the relative name inside the module's directory. |
| Config.DefaultPathIsChild | config.py:22-27 | Without the environment variable, the default is `module_dir / relative_path`, the path operator's own result. |
| Config.Resolve | config.py:85-88 | An explicit directory wins over the environment, which wins over the default location. |
| Config.Init | config.py:54-97 | Each directory comes from the argument, else `CACHE_DIR`/`THEMES_DIR`/`FONTS_DIR`/`OUTPUT_DIR`, else `.cache`/`themes`/`fonts`/`posters` beside the module; every other setting is the argument given. |
| Config.Validate | config.py:99-119 | Passes exactly when every setting is in range; otherwise reports the first failing check, in the source's order, with its message. |
| Config.Check | config.py:99-123 | A range error comes first. Otherwise it succeeds exactly when all four directories can be created, and on failure names the first that cannot be. |
| Config.CheckCreatesInOrder | config.py:122-123 | The directories are created cache, themes, fonts, output; the first that cannot be created is the one reported. |
| Config.LoadConfig | config.py:126-137 | The defaults always pass the range checks, so `load_config` fails exactly when one of the four directories cannot be created. On success it returns the default settings resolved against the environment. |
| Themes.TrailingNewlineAccepted | theme.py:87 | The colour pattern as written accepts `"#FFFFFF\n"`, which is not a hex colour. |
| Themes.FirstInvalid | theme.py:85-88 | The first colour field, in order, that is not a valid colour, or none. |
| Themes.Validate | theme.py:66-88 | Passes exactly when all eleven colour fields are `#` and six hex digits; otherwise names the first field in the source's order that fails. |
| Themes.DefaultTheme | theme.py:141-147 | The fallback theme has the fixed name and description and passes validation. |
| Themes.WithColors | theme.py:14-33 | Builds a theme whose colour fields are exactly the given colours, in field order. |
| Themes.FromFields | theme.py:36-52 | `Theme(**data)` succeeds exactly when `name` is present and every key is a field. Each colour is the file's value where given, else the dataclass default. |
| Themes.Lookup | theme.py:123-125 | A theme file is found exactly when the listing has an entry of that name. |
| Themes.LoadTheme | theme.py:114-139 | Always returns a valid theme. A missing file gives the default. A file that parses to a valid theme is that theme. Anything else gives the default. |
| Themes.LoadThemeKeepsFile | theme.py:129-135 | A valid file's theme is used as loaded, and a colour the file leaves out takes the dataclass default. |
| Themes.LoadThemeFallsBack | theme.py:136-139 | An unparsable, mistyped or invalid file gives the default theme. |
| Themes.JsonNames | theme.py:110 | Exactly the listed file names that end in `.json`. |
| Themes.JsonNamesOnePerFile | theme.py:110 | Each `.json` entry appears exactly as often as the directory lists it, and no other name appears. |
| Themes.ListThemes | theme.py:103-112 | The stems of the `.json` files, one per file, ordered by file name. |
| Themes.ListThemesIgnoresListingOrder | theme.py:110 | The result does not depend on the order the directory lists its files. |
| Themes.ListedByFileName | theme.py:110-111 | Sorting is by file name, not stem: `a-b.json` sorts before `a.json`, so `a-b` is listed before `a` although `a` < `a-b`. |
| Themes.GetThemeInfo | theme.py:157-164 | For a JSON object, the file's `name` and `description`, each defaulting on its own to the theme's name and the empty string, whether or not the colours validate. A missing, unreadable or non-object file gives the theme's own name and an empty description. |
| Themes.InfoMatchesLoadedTheme | theme.py:149-164 | For a valid theme file, the info is the loaded theme's name and description. |
| Paths.FromText | output.py:37 | A path is absolute exactly when its text starts with `/`, and its parts are all proper components. |
| Paths.Child | output.py:37 | Joining an absolute name replaces the directory; otherwise the result extends the directory. |
| Paths.ChildOfComponent | output.py:37 | Joining a plain name puts it directly inside the directory: its name is that name and its parent is the directory. |
| Paths.ChildWithSlash | output.py:37 | A name with a `/` lands in a subdirectory. |
| Paths.FirstMissing | typography.py:36-40 | The first path not present, with every earlier one present, or none when all are present. |
| Output.StampText | output.py:33 | `%Y%m%d_%H%M%S`: fifteen characters, digits around an `_` at position 8. |
| Output.StampRoundTrip | output.py:33 | Reading the stamp text back gives the time stamp. |
| Output.Slug | output.py:34 | Character by character, each space becomes `_` and every other character is lower-cased. |
| Output.SlugIgnoresCase | output.py:34 | The slug of the upper-cased city is the slug of the city. |
| Output.GenerateFilename | output.py:22-37 | For names without `/`, the poster lands directly in the output directory, and its name ends with `.` and the lower-cased format. |
| Output.NameIsComponent | output.py:36-37 | For names without `/`, the file name is one path component. |
| Output.StampInName | output.py:36 | The time stamp can be read back from the file name just before the extension. |
| Output.DifferentSecondsDifferentNames | output.py:33-36 | Posters of one city, theme and format made in different seconds get different names. |
| Output.RootedCityLeavesOutputDir | output.py:34-37 | A city name starting with `/` makes the poster path absolute, outside the output directory. |
| Typography.FromFiles | typography.py:20-46 | Loads the three Roboto faces exactly when all three files exist; otherwise names the first missing file in the order Bold, Regular, Light. |
| Typography.FontPathsAreChildren | typography.py:30-34 | The three font paths are `fonts_dir / "Roboto-Bold.ttf"`, `/ "Roboto-Regular.ttf"` and `/ "Roboto-Light.ttf"`. |
| Typography.NewManager | typography.py:67-78 | The manager falls back to the monospace set exactly when a Roboto file is missing. |
| Typography.ManagerFontsUniform | typography.py:67-78 | The manager never mixes Roboto faces with system faces. |
| Typography.CitySize | typography.py:90-96 | Names of up to ten characters keep the base size; longer ones never go below 24 points. |
| Typography.CitySizeRule | typography.py:92-94 | A long name's size is at least 24 points and at least ten base-size characters wide in total, and equals one of those bounds. So it is `max(base * 10 / len, 24)`. |
| Typography.TwentyCharacterName | typography.py:92-94 | A twenty-character name at the base size of 60 points is set at 30 points. |
| Typography.CityWidthConstant | typography.py:92-94 | Above the floor, size times length is ten times the base size. |
| Typography.CitySizeMonotone | typography.py:90-96 | A longer name never gets a larger font, and no name gets more than the base size. |
| Typography.FallbackCityFontIsFileNone | typography.py:99-103 | As written, the fallback city font becomes a font file named `None` rather than the monospace bold face. |
| Typography.Resized | typography.py:99-103 | The size changes and the face is kept: a file font keeps its file, a system font becomes monospace at the label's weight. |
| Typography.LabelFontsKeepFaces | typography.py:80-148 | The city, country, coordinates and attribution fonts are the bold, light, regular and light faces at their sizes, for both Roboto and fallback sets. With Roboto they agree with the code as written. |
| Typography.FormatCityName | typography.py:151-160 | Each upper-cased letter followed by two spaces, except the last: length 3n-2. |
| Typography.FormatCityNameInverse | typography.py:151-160 | Taking every third character of the spaced name gives back the upper-cased name. |
| Typography.CoordinateParts | typography.py:173-175 | Magnitudes are non-negative; N exactly for a non-negative latitude, E exactly for a non-negative longitude. |
| Typography.CoordinatePartsRoundTrip | typography.py:173-175 | Magnitude and hemisphere together give back the signed coordinates. |
| Renderer.TierOf | renderer.py:91-102 | Each highway value belongs to exactly one tier of the `if`/`elif` chain. |
| Renderer.EdgeColor | renderer.py:91-102 | The chain of membership tests picks the theme colour of the value's tier. |
| Renderer.EdgeColors | renderer.py:71-106 | One colour per edge, in edge order, the colour of the edge's tier. |
| Renderer.EdgeWidth | renderer.py:126-135 | The chain picks the width of the value's tier. |
| Renderer.EdgeWidths | renderer.py:108-139 | One width per edge, in edge order, the width of the edge's tier. |
| Renderer.WidthFollowsHierarchy | renderer.py:126-135 | One tier is drawn wider than another exactly when it ranks higher in the hierarchy. |
| Renderer.UntaggedIsResidential | renderer.py:84-88 | A missing tag and an empty list style as residential streets; a list styles as its first value. |
| Renderer.Bounds | renderer.py:151-157 | The bounding box contains every node. |
| Renderer.CropLimits | renderer.py:141-183 | No crop exactly when there are no nodes or the bounding box has zero height; both raise in the source. |
| Renderer.CropFitted | renderer.py:162-183 | The crop keeps the box's centre and one full extent, has the figure's aspect ratio, and lies inside the box. |
| Renderer.CropWindowFits | renderer.py:141-183 | Whenever a window is computed from a graph's nodes, the same holds for it. |
| Renderer.FadeBand | renderer.py:203-219 | The bottom fade starts at the window's bottom and the top fade ends at its top; each covers a quarter of the height. |
| Renderer.FadeAlpha | renderer.py:194-208 | Opacity runs from 0 to 1; fully opaque exactly at the poster's edge, fully clear exactly at the inner end. |
| Renderer.FadeBandsApart | renderer.py:203-219 | The two fades never overlap. |
| Renderer.CountryText | renderer.py:295-307 | The override, upper-cased, when it is non-empty; otherwise the country, upper-cased. |
| Renderer.Labels | renderer.py:262-340 | Four labels, top to bottom: the spaced city name, the country, the coordinates and the attribution, each with its font, all in the theme's text colour. |
| Renderer.Polygons | renderer.py:242-260 | Only polygons and multipolygons are drawn, all of them; a missing layer draws nothing. |
| Renderer.ExportDpi | renderer.py:414-419 | The resolution is passed exactly for PNG, whatever the case of the format. |
| Renderer.Render | renderer.py:342-422 | Fails exactly when the crop window cannot be computed. Otherwise the plan has the theme's background and fade colour, per-edge colours and widths, water then parks polygons, fades at the window's edges, the four labels, and the lower-cased format with the PNG-only dpi. |
| Poster.Locate | create_map_poster.py:86 | The place is the one the cache or the provider gives (`Poster.Where`), and geocoding fails with the query exactly on a miss the provider cannot answer. A cache hit or a failed cache read leaves the app unchanged, and only the coordinates' cache file can change; afterwards it reads as `Fetch.ReadAfter` says. |
| Poster.FetchNetwork | create_map_poster.py:93-95 | The network is the one the cache or OSMnx gives (`Poster.NetworkRead`). A missing street network raises exactly when the graph misses the cache and OSMnx returns nothing. Only the graph's cache file can change; afterwards it reads as `Fetch.ReadAfter` says. |
| Poster.FetchLayer | create_map_poster.py:99-105 | The layer is the one the cache or OSMnx gives (`Poster.LayerRead`). A missing feature layer is a result, not an error; only a cache failure stops the poster. Only the layer's cache file can change; afterwards it reads as `Fetch.ReadAfter` says. |
| Poster.FetchLayers | create_map_poster.py:98-106 | Water, then parks, each read against the cache as it was: a water failure is the one raised, and otherwise the parks failure or both layers. Only the features throttle and the two layers' cache files change, and nothing changes when both are cached. With the two keys in two files, every key afterwards reads as `Poster.LayersAfter` says: water's file as its fetch left it, then parks' file only when water did not fail. |
| Poster.FetchAll | create_map_poster.py:92-106 | With the three keys in three files, the result is `Poster.PlannedAt` on the starting cache: the network, then water, then parks, and the first failure is the one raised. No street network stops the poster before any feature request. Afterwards every key reads as `Poster.DataAfter` says: the graph's file as its fetch left it, and the layers' files only when the network came through. |
| Poster.FetchData | create_map_poster.py:92-106 | The same for the keys `fetch_graph` and `fetch_features` use around the place: the result is `Poster.Planned`, no street network stops the poster before any feature request, and fully cached data changes nothing. Afterwards every key reads as `Poster.DataAfter` says. |
| Poster.TierColorValid | renderer.py:91-102 | Every road colour of a validated theme is a valid colour. |
| Poster.Draw | create_map_poster.py:110-121 | The poster is saved under output.py's file name, in the loaded theme's colours, with the spaced city name on top. It succeeds exactly when the save succeeds and the projected network can be cropped. |
| Poster.PlannedAfterLocate | create_map_poster.py:86-106 | Caching the coordinates does not change the map data that follows, when the coordinates' file is not one of the data files. |
| Poster.PosterAt | create_map_poster.py:88-121 | Once the place is known, the result is `Poster.Drawing` of `Poster.Planned` on the cache as it was: the map data's first failure, or a render failure exactly when the save fails or the network cannot be cropped, or the poster's file name. Drawing leaves the cache as the downloads left it (`Poster.DataAfter`). |
| Poster.PosterFrom | create_map_poster.py:86-121 | After geocoding has touched only the coordinates' file, with the four keys in four files: the result is `Poster.Drawing` of `Poster.Planned` on the cache as it was before geocoding, and every key afterwards reads as `Poster.After` says. |
| Poster.GeneratePoster | create_map_poster.py:57-121 | When the four keys live in four files, the result is `Poster.Outcome` on the starting cache: geocoding, then the map data, then the drawing, with the first failure raised. A geocoding failure requests no map data; without a street network no feature is requested. Success saves the poster under output.py's name in the loaded theme's colours, with valid road colours. When everything is cached, nothing waits and nothing changes. When the four keys live in four files, every key afterwards reads as `Poster.After` says: the coordinates' file as the geocoder left it, then the map data's files as their fetches left them, each only when the steps before it succeeded. |
| Poster.PosterPath | create_map_poster.py:142 | One turn of the loop returns the poster's file name, and `Poster.Outcome` when the keys are apart. The state it leaves is `Poster.Leaves`: the same setup and cache directory, with every key reading as `Poster.After` says. |
| Poster.CachedForNext | create_map_poster.py:141-143 | A poster that came out, with both layers found and every write stored, leaves the coordinates and all three map-data keys cached (`Poster.Warm`), so the next theme for the same place is drawn without a request or a wait. |
| Poster.GenerateEach | create_map_poster.py:138-145 | Each attempted poster's result is `Poster.Outcome` from the state it started in, when its keys are apart. Every attempt but the last succeeds. The run fails exactly when the last attempt fails, with its failure. Success means one attempt per theme, in order, and the paths are those attempts' file names. Each attempt begins where the previous one left off: `ends[i]` is the state attempt i leaves (`Poster.Leaves`), and `ends` is `starts` shifted by one, closed by the final state. |
| Poster.GenerateAllThemes | create_map_poster.py:123-145 | The same over the themes `list_themes` reports, in its order; none when no theme is listed. |
| Cli.CreateApp | create_map_poster.py:148-192 | Fails exactly when one of the four directories cannot be created, naming it. Otherwise the app has throttles of 1.0, 0.5 and 0.3 s, the listed themes, the typography manager's fonts, a 12×16 inch figure and 300 dpi. |
| Cli.Catalog | create_map_poster.py:256-275 | Every listed theme in order, with the name from its file and its description unless that is empty. |
| Cli.CatalogFallsBack | create_map_poster.py:269-275 | A theme whose file cannot be read is still listed, under its own name and without a description. |
| Cli.DistanceDefaultsDisagree | create_map_poster.py:291 | The distance used without `--distance` is 12000, while the configuration's default (and the help text) is 29000. |
| Cli.ExitCode | create_map_poster.py:298-356 | Exit status 0 exactly for examples, a theme list and generated posters; 2 exactly for a bad format. |
| Cli.Dispatch | create_map_poster.py:314-356 | `--list-themes` lists exactly when given. A missing city or country, no themes, or an unknown theme end the run in that order. Otherwise the run generates (`Cli.Generates`) and ends in `Generated` or `GenerationFailed`: it fails exactly when the last poster attempted fails, with that failure (`Cli.Ran`). For one theme with its keys apart, it succeeds exactly when `Poster.Outcome` does, with that path, and otherwise fails with that outcome's failure. |
| Cli.Generate | create_map_poster.py:341-356 | The posters attempted, each yielding `Poster.Outcome` from where the previous one left off; every one before the last came out; the run's ending is the last one's success or failure. |
| Cli.GenerateAll | create_map_poster.py:342-343 | The same over the themes `list_themes` reports. |
| Cli.GenerateOne | create_map_poster.py:344-345 | One poster: `Generated` with its path exactly when `Poster.Outcome` succeeds, when its keys are apart, and otherwise `GenerationFailed` with the outcome's failure. |
| Cli.Run | create_map_poster.py:278-356 | A bad format ends the run before anything else; no arguments prints examples. Initialisation fails exactly when `create_app` does. After that, the outcome is `Dispatch`'s, and generation is reached exactly when `Cli.Generates` holds. The exit status matches the ending; for one theme with its keys apart it is 0 exactly when `Poster.Outcome` succeeds, and 1 with that failure otherwise. |
| StringOrder.SortedUnique | theme.py:110 | Two sorted lists with the same elements are equal: `sorted` is determined by the multiset. |
| StringOrder.Sort | theme.py:110 | `sorted` yields an ordered permutation. |

## Left out

- Printing, tqdm progress bars, tracebacks and the `print_examples` text are not modelled; only the exit status and the ending are.
- `AsyncOSMDataFetcher.fetch_all_data` (data_fetching.py:201 onward) is not modelled. It is an asyncio wrapper that the command line never calls.
- `Theme.to_json` (theme.py:54-64) is not modelled: nothing in the program calls it.
- `CacheManager.exists` is modelled only as the `Cache.Exists` predicate that `get` uses.
- The geocoder's user agent and timeout, and the `asyncio.iscoroutine` branch (geocoding.py:103-104), are not modelled. They only shape the provider's request, and the provider's answer is a parameter.
- Python's float `str` and `:.4f` formatting are parameters (`repr`, `fixed4`). The key lemmas assume only that `repr` prints no `_` (`DataFetching.ReprSafe`), which is true of Python's float `str`.
- `DataFetching.GraphKeyInjective` and `DataFetching.FeaturesKeyDeterminesRequest` also require that `repr` prints the two points' coordinates differently unless they are equal (`DataFetching.Distinguishes`). Python's `str` is injective on floats, but the model's coordinates are reals, and no map from all reals to strings is injective. `DataFetching.GraphKeyEqual` states the key equality without this assumption.
- The MD5 digest is a parameter of the cache; nothing is assumed about it beyond being a function.
- `Poster.GeneratePoster`, `Poster.PosterAt`, `Poster.FetchData`, `Poster.FetchAll` and `Poster.FetchLayers` state their result against the starting cache only when the poster's cache keys land in different files (`Poster.Apart`, `Poster.Separate`). If two of the keys had colliding MD5 digests, an earlier write would change a later read, as `Cache.DigestCollisionShares` shows.
- `Poster.GenerateEach`, `Poster.GenerateAllThemes` and `Cli.Ran` state what a poster leaves in the cache (`Poster.Leaves`) only when its keys land in four files. Otherwise they state only that the setup and the cache directory's digest are unchanged.
- `Poster.Leaves` does not state the throttles' timers after a poster that fetched. The timers are stated step by step by `Poster.Locate`, `Poster.FetchNetwork` and `Poster.FetchLayer`, and a fully cached poster changes nothing.
- A sleep is taken to last exactly as long as asked, and the clock readings of each request are parameters.
- Case mapping is ASCII-only. Python's `str.upper` and `str.lower` also map other letters and may change a string's length (`"ß".upper()` is `"SS"`).
- A cached value of the wrong kind (say, a graph under a coordinates key) is reported as the `UnexpectedCacheValue` failure; the program would fail later, in a way the model does not follow.
- A cached `None` pickle would read as a miss in the source; nothing in the program stores `None`, so the model does not represent it.
- `Cache.Clear` does not model `unlink` failing halfway (cache.py:110-111).
- Matplotlib and OSMnx drawing, the graph projection (a parameter), the re-projection of feature layers (renderer.py:246-249) and `mcolors.to_rgb` are not modelled. Validated theme colours are always accepted by `to_rgb`.
- `Renderer.CropLimits`: a bounding box of zero height is treated as raising `ZeroDivisionError`. If OSMnx hands back numpy floats, the division would yield `inf` or `nan` with a warning instead; the model does not follow that case.
- The crop window uses the figure's configured size (renderer.py:160), which is the model's `figWidth`/`figHeight`.
- Argparse's own parsing and type errors are not modelled. The model starts from the parsed arguments, except that an unknown `--format` ends the run with status 2.
- `Paths` models `pathlib` for the operations used here. It does not model the `//` prefix that POSIX paths keep, or `..` components.
- `Output.StampRoundTrip` requires a four-digit year: `strftime("%Y")` prints years before 1000 without padding on some platforms.
- `Themes.Lookup` finds a theme only among the directory's entries. A theme name containing `/` would reach a subdirectory in the source; the model does not follow it.
- `Cli.Catalog`: a `description` in the file that is not a string is shown unless it equals the empty string. Python's truthiness would also hide `0`, `false`, `null` and empty lists and objects.
- `DataFetching.FetchGraph` and `DataFetching.FetchFeatures` carry no contract of their own. They are `DataFetching.FetchAs` on their cache key and request class, and `FetchAs` states what both do. `Poster` calls `FetchAs` with the same keys (`Poster.GraphKey`, `Poster.WaterKey`, `Poster.ParksKey`).
- `Poster.PosterPath` states only the path, the outcome, the state left behind and the unchanged setup, because it is the loop body of `generate_all_themes`; `Poster.GeneratePoster` states the rest.
- `Cli.Run` states `Dispatch`'s outcome for the list, place and theme checks, and for a single theme the exit status against `Poster.Outcome`. It states the generated paths only for `--all-themes`; `Cli.Dispatch` states the rest of the generation record.
- `Poster.Locate`, `Poster.FetchNetwork` and `Poster.FetchLayer` do not state the throttle effect of a miss. They inherit it from `Geocoding.Geocode` and `DataFetching.FetchAs`, which state it.
- `Typography.FormatCoordinates` is the `fixed4`-formatted text of `Typography.CoordinateParts`. Its contract is that function's.
- `Themes.Validate` checks colours with the intended pattern `Themes.IsHexColor`, not the regex of theme.py:87 as written, so it rejects `"#FFFFFF\n"`, which the source accepts (see Findings).
- `Themes.FirstInvalid` reports a colour ending in a newline as invalid; the source's regex lets it through (theme.py:87, see Findings).
- `Themes.LoadTheme` gives the default theme for a file with a colour such as `"#FFFFFF\n"`; as written, `load_theme` returns that file's theme (theme.py:87, see Findings).
- `Typography.Resized` is the intended `else` branch of typography.py:99-103 and its three copies. As written, a fallback font becomes `FontProperties(fname="None")` (see Findings).
- `Typography.LabelFontsKeepFaces` states the label fonts through `Typography.Resized`: with the Roboto files missing, the model's labels are monospace at the label's weight, where the source's are `FontProperties(fname="None")` (see Findings).
- `Renderer.Labels` draws the labels with the corrected fonts of `Typography.Resized`, not the source's `fname="None"` fonts when Roboto is missing (see Findings).
- `Poster.Draw` loads themes with the corrected colour check and draws labels with the corrected fonts, following both Findings rather than the code as written.
- The managers' own `mkdir` calls (cache.py:28-32, theme.py:101, output.py:20) are not modelled as separate steps. `Config.validate` has already created the same directories, so with `exist_ok=True` they cannot fail.

## Findings

| source | as written | input that shows it | evidently intended | confidence | as-written member | corrected member |
|---|---|---|---|---|---|---|
| theme.py:87 | `re.match(r"^#[0-9A-Fa-f]{6}$", color)`: `$` also matches just before a final newline | the colour `"#FFFFFF\n"` passes validation | exactly `#` and six hex digits | high, not executed | Themes.ColorMatchAsWritten, Themes.TrailingNewlineAccepted | Themes.IsHexColor |
| typography.py:99-103 (and 114-118, 129-133, 144-148) | `hasattr(font, "get_file")` is true for every `FontProperties`; a family-based fallback font's `get_file()` is `None`, so the label font becomes `FontProperties(fname="None")` | Roboto files missing, so `FontSet.fallback()` is used | the `else` branch: monospace at the label's weight | medium, not executed | Typography.CityFontAsWritten, Typography.FallbackCityFontIsFileNone | Typography.Resized, Typography.LabelFontsKeepFaces |
