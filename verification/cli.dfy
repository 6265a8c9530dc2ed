/** create_map_poster.py: the `create_app` factory, the theme catalogue
    that `--list-themes` prints, and `main`'s exit codes. Parsing the
    command line is argparse's business: the model starts from the parsed
    arguments. The file system is an oracle. */
module Cli {
  import opened Common
  import C = Cache
  import RL = RateLimit
  import T = Themes
  import Ty = Typography
  import P = Paths
  import Cfg = Config
  import Pst = Poster
  import O = Output

  /** What the program finds on disk: the directories `mkdir(parents=True,
      exist_ok=True)` succeeds on, the files that exist, what `glob` lists
      in a directory, and what the cache directory already holds. */
  datatype FileSystem = FileSystem(
    creatable: set<P.Path>,
    files: set<P.Path>,
    listing: P.Path -> T.Listing,
    cached: C.Store<Pst.Payload>)

  /** `create_app`: `load_config` (whose `validate` creates the cache,
      themes, fonts and output directories, in that order), then the cache
      manager, the services with their throttles, the theme manager, the
      typography manager, the renderer and the output manager. The managers'
      own `mkdir` calls repeat directories that `validate` has just created,
      so they cannot fail. `repr` and `fixed4` are Python's float formatting. */
  function CreateApp(
    env: Cfg.Environment, moduleDir: P.Path, fs: FileSystem, repr: real -> string, fixed4: real -> string
  ): (r: Result<Pst.App, Cfg.ConfigError>)
    ensures
      var c := Cfg.Init(Cfg.Defaults, env, moduleDir);
      && (r.Ok? <==> forall d :: d in Cfg.Directories(c) ==> d in fs.creatable)
      && (r.Err? ==> r.error.MkdirFailed? && r.error.dir in Cfg.Directories(c) && r.error.dir !in fs.creatable)
      && (r.Ok? ==>
        && Pst.Ready(r.value)
        && r.value.store == fs.cached
        && r.value.geocoding == RL.Timer(1.0, None)
        && r.value.graphs == RL.Timer(0.5, None)
        && r.value.features == RL.Timer(0.3, None)
        && r.value.themes == fs.listing(c.themesDir)
        && r.value.outputDir == c.outputDir
        && r.value.fonts == Ty.NewManager(c.fontsDir, fs.files).fonts
        && (r.value.figWidth, r.value.figHeight, r.value.dpi) == (12.0, 16.0, 300))
  {
    match Cfg.LoadConfig(env, moduleDir, fs.creatable)
    case Err(e) => Err(e)
    case Ok(c) =>
      Ok(Pst.App(
        fs.cached,
        RL.Timer(c.geocodingRateLimit, None),
        RL.Timer(c.graphRateLimit, None),
        RL.Timer(c.featuresRateLimit, None),
        fs.listing(c.themesDir),
        c.outputDir,
        Ty.NewManager(c.fontsDir, fs.files).fonts,
        c.figureWidth, c.figureHeight, c.dpi,
        repr, fixed4))
  }

  /** One theme as `--list-themes` shows it: the theme's file stem, the
      name inside the file, and its description when there is one to show. */
  datatype CatalogEntry = CatalogEntry(theme: string, title: T.Json, description: Option<T.Json>)

  /** `list_themes` in create_map_poster.py: every listed theme, in order,
      with the description line left out when it is the empty string. */
  function Catalog(dir: T.Listing): (r: seq<CatalogEntry>)
    ensures |r| == |T.ListThemes(dir)|
    ensures forall i :: 0 <= i < |r| ==>
      && r[i].theme == T.ListThemes(dir)[i]
      && r[i].title == T.GetThemeInfo(dir, r[i].theme).name
      && (r[i].description.None? <==> T.GetThemeInfo(dir, r[i].theme).description == T.JString(""))
      && (r[i].description.Some? ==> r[i].description.value == T.GetThemeInfo(dir, r[i].theme).description)
  {
    var names := T.ListThemes(dir);
    seq(|names|, i requires 0 <= i < |names| => Entry(dir, names[i]))
  }

  function Entry(dir: T.Listing, name: string): CatalogEntry
  {
    var info := T.GetThemeInfo(dir, name);
    CatalogEntry(name, info.name, if info.description == T.JString("") then None else Some(info.description))
  }

  /** A theme whose file is missing or unreadable is still listed, under
      its own name and without a description. */
  lemma CatalogFallsBack(dir: T.Listing, i: nat)
    requires i < |T.ListThemes(dir)|
    requires
      var f := T.Lookup(dir, T.ThemePath(T.ListThemes(dir)[i]));
      !(f.Some? && f.value.Parsed? && f.value.doc.Object?)
    ensures Catalog(dir)[i] == CatalogEntry(T.ListThemes(dir)[i], T.JString(T.ListThemes(dir)[i]), None)
  {
  }

  /** The parsed command line. */
  datatype Args = Args(
    city: Option<string>,
    country: Option<string>,
    countryLabel: Option<string>,
    theme: string,
    allThemes: bool,
    distance: int,
    format: string,
    listThemes: bool)

  /** What argparse yields for an option left out. */
  const DefaultArgs := Args(None, None, None, "feature_based", false, 12000, "png", false)

  /** The `choices` of `--format`. */
  const Formats: seq<string> := ["png", "svg", "pdf"]

  /** The distance used when `--distance` is left out is argparse's 12000,
      not the configuration's `default_distance` of 29000 that the option's
      help text announces. */
  lemma DistanceDefaultsDisagree(env: Cfg.Environment, moduleDir: P.Path, creatable: set<P.Path>)
    requires Cfg.LoadConfig(env, moduleDir, creatable).Ok?
    ensures DefaultArgs.distance == 12000
    ensures Cfg.LoadConfig(env, moduleDir, creatable).value.distance == 29000
  {
  }

  /** A string argument that Python treats as true. */
  predicate Given(s: Option<string>)
  {
    s.Some? && s.value != ""
  }

  /** How a run of `main` ends. */
  datatype Ending =
    | Examples
    | BadFormat
    | InitFailed(error: Cfg.ConfigError)
    | ThemesListed(catalog: seq<CatalogEntry>)
    | PlaceMissing
    | NoThemes
    | UnknownTheme(theme: string, available: seq<string>)
    | GenerationFailed(failure: Pst.Failure)
    | Generated(paths: seq<P.Path>)

  /** `sys.exit`'s status for each ending; argparse exits with 2. */
  function ExitCode(e: Ending): (code: int)
    ensures code == 0 <==> e.Examples? || e.ThemesListed? || e.Generated?
    ensures code == 2 <==> e.BadFormat?
  {
    match e
    case Examples => 0
    case BadFormat => 2
    case ThemesListed(_) => 0
    case Generated(_) => 0
    case _ => 1
  }

  /** `main` gets as far as generating: no `--list-themes`, a city and a
      country, some theme on disk, and either `--all-themes` or a known
      theme. */
  predicate Generates(app: Pst.App, args: Args)
  {
    && !args.listThemes && Given(args.city) && Given(args.country) && T.ListThemes(app.themes) != []
    && (args.allThemes || args.theme in T.ListThemes(app.themes))
  }

  /** The themes a generating run makes posters for, in order. */
  function Requested(app: Pst.App, args: Args): seq<string>
  {
    if args.allThemes then T.ListThemes(app.themes) else [args.theme]
  }

  /** `main` once the application exists: `--list-themes`, the checks on
      the place and the theme, then generation. Generation uses `worlds(0)`
      for a single poster and `worlds(i)` for the i-th theme of
      `--all-themes`. `turns` are the posters attempted, `starts` the state
      each began from and `ends` the state each left behind. */
  method Dispatch(app: Pst.App, args: Args, worlds: nat -> Pst.World)
    returns (ending: Ending, ghost starts: seq<Pst.App>, ghost turns: seq<Result<P.Path, Pst.Failure>>,
             ghost ends: seq<Pst.App>)
    requires Pst.Ready(app)
    ensures args.listThemes <==> ending.ThemesListed?
    ensures args.listThemes ==> ending == ThemesListed(Catalog(app.themes))
    ensures ending.PlaceMissing? <==> !args.listThemes && !(Given(args.city) && Given(args.country))
    ensures ending.NoThemes? <==>
      !args.listThemes && Given(args.city) && Given(args.country) && T.ListThemes(app.themes) == []
    ensures ending.UnknownTheme? <==>
      && !args.listThemes && Given(args.city) && Given(args.country) && T.ListThemes(app.themes) != []
      && !args.allThemes && args.theme !in T.ListThemes(app.themes)
    ensures ending.UnknownTheme? ==> ending == UnknownTheme(args.theme, T.ListThemes(app.themes))
    ensures ending.Generated? ==>
      && (!args.allThemes ==>
            ending.paths == [O.GenerateFilename(app.outputDir, args.city.value, args.theme, args.format, worlds(0).stamp)])
      && (args.allThemes ==> |ending.paths| == |T.ListThemes(app.themes)|)
    ensures !ending.Generated? && !ending.GenerationFailed? ==>
      args.listThemes || !(Given(args.city) && Given(args.country)) || T.ListThemes(app.themes) == []
      || (!args.allThemes && args.theme !in T.ListThemes(app.themes))
    // generation ends in success or failure, and which one is the last poster's to say
    ensures Generates(app, args) <==> ending.Generated? || ending.GenerationFailed?
    ensures !Generates(app, args) ==> starts == [] && turns == [] && ends == []
    ensures ending.GenerationFailed? <==> |turns| > 0 && turns[|turns| - 1].Err?
    ensures ending.GenerationFailed? ==> ending.failure == turns[|turns| - 1].error
    ensures Generates(app, args) ==>
      Ran(app, Requested(app, args), worlds, args.city.value, args.country.value, args.distance, args.format,
          ending, starts, turns, ends)
    // one theme: exit 0 exactly when its poster comes out
    ensures Generates(app, args) && !args.allThemes
            && Pst.Separate(app, worlds(0), args.city.value, args.country.value, args.distance) ==>
      var outcome := Pst.Outcome(app, worlds(0), args.city.value, args.country.value, args.theme, args.distance, args.format);
      && (ending.Generated? <==> outcome.Ok?)
      && (ending.Generated? ==> ending.paths == [outcome.value])
      && (ending.GenerationFailed? ==> ending.failure == outcome.error)
  {
    starts, turns, ends := [], [], [];
    if args.listThemes {
      ending := ThemesListed(Catalog(app.themes));
      return;
    }
    if !(Given(args.city) && Given(args.country)) {
      ending := PlaceMissing;
      return;
    }
    var city, country := args.city.value, args.country.value;
    var available := T.ListThemes(app.themes);
    if available == [] {
      ending := NoThemes;
      return;
    }
    if !args.allThemes && args.theme !in available {
      ending := UnknownTheme(args.theme, available);
      return;
    }
    ending, starts, turns, ends := Generate(app, args, worlds);
  }

  /** A generating run over `themes`: it ends in `Generated` or in
      `GenerationFailed`, with the last poster's failure; every poster but
      the last came out; and each poster yields what its own cache and world
      dictate and begins where the previous one left off. */
  ghost predicate Ran(app: Pst.App, themes: seq<string>, worlds: nat -> Pst.World, city: string, country: string,
                      distance: int, format: string, ending: Ending, starts: seq<Pst.App>,
                      turns: seq<Result<P.Path, Pst.Failure>>, ends: seq<Pst.App>)
  {
    && 0 < |starts| == |turns| == |ends| <= |themes|
    && (ending.Generated? || ending.GenerationFailed?)
    && (forall i :: 0 <= i < |turns| - 1 ==> turns[i].Ok?)
    && (ending.GenerationFailed? <==> turns[|turns| - 1].Err?)
    && (ending.GenerationFailed? ==> ending.failure == turns[|turns| - 1].error)
    && (ending.Generated? ==>
         && |turns| == |ending.paths| == |themes|
         && forall i :: 0 <= i < |turns| ==>
           && turns[i] == Ok(ending.paths[i])
           && ending.paths[i] == O.GenerateFilename(app.outputDir, city, themes[i], format, worlds(i).stamp))
    && starts[0] == app && starts[1..] == ends[..|ends| - 1]
    && forall i :: 0 <= i < |turns| ==>
      && Pst.Yields(starts[i], worlds(i), city, country, themes[i], distance, format, turns[i])
      && Pst.Leaves(starts[i], worlds(i), city, country, distance, ends[i])
  }

  /** The `try` block of `main`: `generate_all_themes` or one
      `generate_poster`; any exception is the run's failure. */
  method Generate(app: Pst.App, args: Args, worlds: nat -> Pst.World)
    returns (ending: Ending, ghost starts: seq<Pst.App>, ghost turns: seq<Result<P.Path, Pst.Failure>>,
             ghost ends: seq<Pst.App>)
    requires Pst.Ready(app) && Generates(app, args)
    ensures Ran(app, Requested(app, args), worlds, args.city.value, args.country.value, args.distance, args.format,
                ending, starts, turns, ends)
    ensures !args.allThemes && Pst.Separate(app, worlds(0), args.city.value, args.country.value, args.distance) ==>
      var outcome := Pst.Outcome(app, worlds(0), args.city.value, args.country.value, args.theme, args.distance, args.format);
      && (ending.Generated? <==> outcome.Ok?)
      && (ending.Generated? ==> ending.paths == [outcome.value])
      && (ending.GenerationFailed? ==> ending.failure == outcome.error)
  {
    if args.allThemes {
      ending, starts, turns, ends := GenerateAll(app, worlds, args.city.value, args.country.value, args.distance,
        args.format, args.countryLabel);
    } else {
      ending, starts, turns, ends := GenerateOne(app, worlds, args.city.value, args.country.value, args.theme,
        args.distance, args.format, args.countryLabel);
    }
  }

  /** `app.generate_all_themes(...)` inside `main`'s `try`. */
  method GenerateAll(
    app: Pst.App, worlds: nat -> Pst.World, city: string, country: string, distance: int, format: string,
    countryLabel: Option<string>
  ) returns (ending: Ending, ghost starts: seq<Pst.App>, ghost turns: seq<Result<P.Path, Pst.Failure>>,
             ghost ends: seq<Pst.App>)
    requires Pst.Ready(app) && T.ListThemes(app.themes) != []
    ensures Ran(app, T.ListThemes(app.themes), worlds, city, country, distance, format, ending, starts, turns, ends)
  {
    var next, result;
    next, result, starts, turns, ends := Pst.GenerateAllThemes(app, worlds, city, country, distance, format, countryLabel);
    ending := if result.Err? then GenerationFailed(result.error) else Generated(result.value);
  }

  /** `app.generate_poster(...)` inside `main`'s `try`. */
  method GenerateOne(
    app: Pst.App, worlds: nat -> Pst.World, city: string, country: string, themeName: string, distance: int,
    format: string, countryLabel: Option<string>
  ) returns (ending: Ending, ghost starts: seq<Pst.App>, ghost turns: seq<Result<P.Path, Pst.Failure>>,
             ghost ends: seq<Pst.App>)
    requires Pst.Ready(app)
    ensures Ran(app, [themeName], worlds, city, country, distance, format, ending, starts, turns, ends)
    ensures Pst.Separate(app, worlds(0), city, country, distance) ==>
      var outcome := Pst.Outcome(app, worlds(0), city, country, themeName, distance, format);
      && (ending.Generated? <==> outcome.Ok?)
      && (ending.Generated? ==> ending.paths == [outcome.value])
      && (ending.GenerationFailed? ==> ending.failure == outcome.error)
  {
    var next, path := Pst.PosterPath(app, worlds(0), city, country, themeName, distance, format, countryLabel);
    ending := if path.Ok? then Generated([path.value]) else GenerationFailed(path.error);
    starts, turns, ends := [app], [path], [next];
    RanOne(app, worlds, city, country, themeName, distance, format, ending, path, next);
  }

  /** A run of one poster, begun from `app`, that left `next` behind. */
  lemma RanOne(app: Pst.App, worlds: nat -> Pst.World, city: string, country: string, themeName: string,
               distance: int, format: string, ending: Ending, path: Result<P.Path, Pst.Failure>, next: Pst.App)
    requires Pst.Yields(app, worlds(0), city, country, themeName, distance, format, path)
    requires Pst.Leaves(app, worlds(0), city, country, distance, next)
    requires path.Ok? ==> path.value == O.GenerateFilename(app.outputDir, city, themeName, format, worlds(0).stamp)
    requires ending == if path.Ok? then Generated([path.value]) else GenerationFailed(path.error)
    ensures Ran(app, [themeName], worlds, city, country, distance, format, ending, [app], [path], [next])
  {
    assert [app][1..] == [next][..0];
  }

  /** `main`. `argc` is `len(sys.argv)`; argparse rejects an unknown format
      before anything else runs. */
  method Run(
    argc: nat, args: Args, env: Cfg.Environment, moduleDir: P.Path, fs: FileSystem,
    repr: real -> string, fixed4: real -> string, worlds: nat -> Pst.World
  ) returns (ending: Ending, code: int)
    ensures code == ExitCode(ending)
    ensures args.format !in Formats ==> ending == BadFormat
    ensures args.format in Formats && argc == 1 ==> ending == Examples
    ensures ending.InitFailed? <==>
      args.format in Formats && argc != 1 && CreateApp(env, moduleDir, fs, repr, fixed4).Err?
    ensures ending.InitFailed? ==> ending.error == CreateApp(env, moduleDir, fs, repr, fixed4).error
    ensures
      var app := CreateApp(env, moduleDir, fs, repr, fixed4);
      args.format in Formats && argc != 1 && app.Ok? ==>
        && (args.listThemes <==> ending.ThemesListed?)
        && (args.listThemes ==> ending == ThemesListed(Catalog(app.value.themes)))
        && (ending.PlaceMissing? <==> !args.listThemes && !(Given(args.city) && Given(args.country)))
        && (ending.UnknownTheme? ==> !args.allThemes && args.theme !in T.ListThemes(app.value.themes))
        && (ending.Generated? && args.allThemes ==> |ending.paths| == |T.ListThemes(app.value.themes)|)
        && (Generates(app.value, args) <==> ending.Generated? || ending.GenerationFailed?)
    // one theme: the exit status is 0 exactly when its poster comes out
    ensures
      var app := CreateApp(env, moduleDir, fs, repr, fixed4);
      args.format in Formats && argc != 1 && app.Ok? && Generates(app.value, args) && !args.allThemes
      && Pst.Separate(app.value, worlds(0), args.city.value, args.country.value, args.distance) ==>
        var outcome := Pst.Outcome(app.value, worlds(0), args.city.value, args.country.value, args.theme,
                                   args.distance, args.format);
        && (code == 0 <==> outcome.Ok?)
        && (ending.GenerationFailed? ==> code == 1 && ending.failure == outcome.error)
  {
    if args.format !in Formats {
      return BadFormat, 2;
    }
    if argc == 1 {
      return Examples, 0;
    }
    var created := CreateApp(env, moduleDir, fs, repr, fixed4);
    if created.Err? {
      return InitFailed(created.error), 1;
    }
    ghost var starts, turns, ends;
    ending, starts, turns, ends := Dispatch(created.value, args, worlds);
    code := ExitCode(ending);
  }
}
