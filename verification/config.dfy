/** config.py: where the four directories come from, the settings'
    defaults, and `Config.validate`. The process environment, the directory
    holding config.py and the directories `mkdir` succeeds on are
    parameters. */
module Config {
  import opened Common
  import opened Paths

  type Environment = map<string, string>

  /** `_get_default_path`: the environment variable if it is set, else
      `module_dir / relative_path` (`DefaultPathIsChild`). */
  function DefaultPath(env: Environment, envVar: string, relative: string, moduleDir: Path): (p: Path)
    ensures envVar in env ==> p == FromText(env[envVar])
    ensures envVar !in env && IsComponent(relative) ==> p == Path(moduleDir.absolute, moduleDir.parts + [relative])
  {
    if envVar in env then FromText(env[envVar])
    else if IsComponent(relative) then Path(moduleDir.absolute, moduleDir.parts + [relative])
    else Child(moduleDir, relative)
  }

  /** Without the variable, the default is the relative path joined to the
      module's directory. */
  lemma DefaultPathIsChild(env: Environment, envVar: string, relative: string, moduleDir: Path)
    requires envVar !in env
    ensures DefaultPath(env, envVar, relative, moduleDir) == Child(moduleDir, relative)
  {
    if IsComponent(relative) {
      ChildOfComponent(moduleDir, relative);
    }
  }

  datatype Settings = Settings(
    cacheDir: Path,
    themesDir: Path,
    fontsDir: Path,
    outputDir: Path,
    userAgent: string,
    timeout: int,
    geocodingRateLimit: real,
    graphRateLimit: real,
    featuresRateLimit: real,
    figureWidth: real,
    figureHeight: real,
    dpi: int,
    distance: int)

  /** The arguments of `Config.__init__`; a directory left as `None` is
      resolved by `DefaultPath`. */
  datatype Arguments = Arguments(
    cacheDir: Option<Path>,
    themesDir: Option<Path>,
    fontsDir: Option<Path>,
    outputDir: Option<Path>,
    userAgent: string,
    timeout: int,
    geocodingRateLimit: real,
    graphRateLimit: real,
    featuresRateLimit: real,
    figureWidth: real,
    figureHeight: real,
    dpi: int,
    distance: int)

  /** `Config()` with no arguments: every keyword at its default. */
  const Defaults := Arguments(None, None, None, None, "city_map_poster", 10, 1.0, 0.5, 0.3, 12.0, 16.0, 300, 29000)

  function Resolve(given: Option<Path>, env: Environment, envVar: string, relative: string, moduleDir: Path): (p: Path)
    ensures given.Some? ==> p == given.value
    ensures given.None? && envVar in env ==> p == FromText(env[envVar])
    ensures given.None? && envVar !in env && IsComponent(relative) ==>
      p == Path(moduleDir.absolute, moduleDir.parts + [relative])
  {
    if given.Some? then given.value else DefaultPath(env, envVar, relative, moduleDir)
  }

  /** `Config.__init__` */
  function Init(a: Arguments, env: Environment, moduleDir: Path): (c: Settings)
    ensures a.cacheDir.Some? ==> c.cacheDir == a.cacheDir.value
    ensures a.cacheDir.None? && "CACHE_DIR" in env ==> c.cacheDir == FromText(env["CACHE_DIR"])
    ensures a.cacheDir.None? && "CACHE_DIR" !in env ==> c.cacheDir == Path(moduleDir.absolute, moduleDir.parts + [".cache"])
    ensures a.themesDir.Some? ==> c.themesDir == a.themesDir.value
    ensures a.themesDir.None? && "THEMES_DIR" in env ==> c.themesDir == FromText(env["THEMES_DIR"])
    ensures a.themesDir.None? && "THEMES_DIR" !in env ==> c.themesDir == Path(moduleDir.absolute, moduleDir.parts + ["themes"])
    ensures a.fontsDir.Some? ==> c.fontsDir == a.fontsDir.value
    ensures a.fontsDir.None? && "FONTS_DIR" in env ==> c.fontsDir == FromText(env["FONTS_DIR"])
    ensures a.fontsDir.None? && "FONTS_DIR" !in env ==> c.fontsDir == Path(moduleDir.absolute, moduleDir.parts + ["fonts"])
    ensures a.outputDir.Some? ==> c.outputDir == a.outputDir.value
    ensures a.outputDir.None? && "OUTPUT_DIR" in env ==> c.outputDir == FromText(env["OUTPUT_DIR"])
    ensures a.outputDir.None? && "OUTPUT_DIR" !in env ==> c.outputDir == Path(moduleDir.absolute, moduleDir.parts + ["posters"])
    ensures (c.userAgent, c.timeout, c.dpi, c.distance) == (a.userAgent, a.timeout, a.dpi, a.distance)
    ensures (c.geocodingRateLimit, c.graphRateLimit, c.featuresRateLimit)
      == (a.geocodingRateLimit, a.graphRateLimit, a.featuresRateLimit)
    ensures (c.figureWidth, c.figureHeight) == (a.figureWidth, a.figureHeight)
  {
    assert IsComponent(".cache") && IsComponent("themes") && IsComponent("fonts") && IsComponent("posters");
    Settings(
      Resolve(a.cacheDir, env, "CACHE_DIR", ".cache", moduleDir),
      Resolve(a.themesDir, env, "THEMES_DIR", "themes", moduleDir),
      Resolve(a.fontsDir, env, "FONTS_DIR", "fonts", moduleDir),
      Resolve(a.outputDir, env, "OUTPUT_DIR", "posters", moduleDir),
      a.userAgent, a.timeout, a.geocodingRateLimit, a.graphRateLimit, a.featuresRateLimit,
      a.figureWidth, a.figureHeight, a.dpi, a.distance)
  }

  /** The `ValueError` messages of `validate`. */
  const TimeoutMessage := "geocoding_timeout must be positive"
  const GeocodingRateMessage := "geocoding_rate_limit must be non-negative"
  const GraphRateMessage := "graph_rate_limit must be non-negative"
  const FeaturesRateMessage := "features_rate_limit must be non-negative"
  const DpiMessage := "default_dpi must be positive"
  const DistanceMessage := "default_distance must be positive"
  const FigureMessage := "default_figure_size dimensions must be positive"

  /** Every numeric setting is in range. */
  predicate WellFormed(c: Settings)
  {
    && c.timeout > 0
    && c.geocodingRateLimit >= 0.0 && c.graphRateLimit >= 0.0 && c.featuresRateLimit >= 0.0
    && c.dpi > 0 && c.distance > 0
    && c.figureWidth > 0.0 && c.figureHeight > 0.0
  }

  /** The range checks of `Config.validate`: `None` when they pass, else
      the message of the first check that fails, in the order they are made. */
  function Validate(c: Settings): (r: Option<string>)
    ensures r.None? <==> WellFormed(c)
    ensures r == Some(TimeoutMessage) <==> c.timeout <= 0
    ensures r == Some(GeocodingRateMessage) <==> c.timeout > 0 && c.geocodingRateLimit < 0.0
    ensures r == Some(GraphRateMessage) <==>
      c.timeout > 0 && c.geocodingRateLimit >= 0.0 && c.graphRateLimit < 0.0
    ensures r == Some(FeaturesRateMessage) <==>
      c.timeout > 0 && c.geocodingRateLimit >= 0.0 && c.graphRateLimit >= 0.0 && c.featuresRateLimit < 0.0
    ensures r == Some(DpiMessage) <==>
      && c.timeout > 0 && c.geocodingRateLimit >= 0.0 && c.graphRateLimit >= 0.0 && c.featuresRateLimit >= 0.0
      && c.dpi <= 0
    ensures r == Some(DistanceMessage) <==>
      && c.timeout > 0 && c.geocodingRateLimit >= 0.0 && c.graphRateLimit >= 0.0 && c.featuresRateLimit >= 0.0
      && c.dpi > 0 && c.distance <= 0
    ensures r == Some(FigureMessage) <==>
      && c.timeout > 0 && c.geocodingRateLimit >= 0.0 && c.graphRateLimit >= 0.0 && c.featuresRateLimit >= 0.0
      && c.dpi > 0 && c.distance > 0 && (c.figureWidth <= 0.0 || c.figureHeight <= 0.0)
  {
    if c.timeout <= 0 then Some(TimeoutMessage)
    else if c.geocodingRateLimit < 0.0 then Some(GeocodingRateMessage)
    else if c.graphRateLimit < 0.0 then Some(GraphRateMessage)
    else if c.featuresRateLimit < 0.0 then Some(FeaturesRateMessage)
    else if c.dpi <= 0 then Some(DpiMessage)
    else if c.distance <= 0 then Some(DistanceMessage)
    else if c.figureWidth <= 0.0 || c.figureHeight <= 0.0 then Some(FigureMessage)
    else None
  }

  /** Why `validate` raises: a setting out of range (`ValueError`), or a
      directory that `mkdir` cannot create (`OSError`). */
  datatype ConfigError = Invalid(message: string) | MkdirFailed(dir: Path)

  /** The directories `validate` creates, in the order it creates them. */
  function Directories(c: Settings): seq<Path>
  {
    [c.cacheDir, c.themesDir, c.fontsDir, c.outputDir]
  }

  /** `Config.validate`: the range checks, then `mkdir(parents=True,
      exist_ok=True)` on each directory; `creatable` holds the directories
      it succeeds on. */
  function Check(c: Settings, creatable: set<Path>): (r: Option<ConfigError>)
    ensures Validate(c).Some? ==> r == Some(Invalid(Validate(c).value))
    ensures Validate(c).None? ==> (r.None? <==> forall d :: d in Directories(c) ==> d in creatable)
    ensures r.Some? && Validate(c).None? ==>
      exists i :: 0 <= i < 4 && r.value == MkdirFailed(Directories(c)[i]) && Directories(c)[i] !in creatable
        && forall k :: 0 <= k < i ==> Directories(c)[k] in creatable
  {
    match Validate(c)
    case Some(message) => Some(Invalid(message))
    case None =>
      var dirs := Directories(c);
      match FirstMissing(dirs, creatable, 0)
      case Some(i) => Some(MkdirFailed(dirs[i]))
      case None => None
  }

  /** `load_config`: `Config()` then `validate()`. The defaults always pass
      the range checks, whatever the environment, so it fails only on the
      first directory that cannot be created. */
  function LoadConfig(env: Environment, moduleDir: Path, creatable: set<Path>): (r: Result<Settings, ConfigError>)
    ensures
      var c := Init(Defaults, env, moduleDir);
      && (r.Ok? <==> forall d :: d in Directories(c) ==> d in creatable)
      && (r.Ok? ==> r.value == c)
      && (r.Err? ==>
            exists i :: 0 <= i < 4 && r.error == MkdirFailed(Directories(c)[i]) && Directories(c)[i] !in creatable
              && forall k :: 0 <= k < i ==> Directories(c)[k] in creatable)
  {
    var c := Init(Defaults, env, moduleDir);
    assert Validate(c).None?;
    match Check(c, creatable)
    case None => Ok(c)
    case Some(e) => Err(e)
  }

  /** The directories are created cache, themes, fonts, output: the first
      that cannot be created is the one `validate` reports. */
  lemma {:induction false} CheckCreatesInOrder(c: Settings, creatable: set<Path>)
    requires WellFormed(c)
    ensures
      var r := Check(c, creatable);
      && (c.cacheDir !in creatable ==> r == Some(MkdirFailed(c.cacheDir)))
      && (c.cacheDir in creatable && c.themesDir !in creatable ==> r == Some(MkdirFailed(c.themesDir)))
      && (c.cacheDir in creatable && c.themesDir in creatable && c.fontsDir !in creatable ==>
            r == Some(MkdirFailed(c.fontsDir)))
      && (c.cacheDir in creatable && c.themesDir in creatable && c.fontsDir in creatable ==>
            (c.outputDir !in creatable <==> r == Some(MkdirFailed(c.outputDir))))
  {
    var r, dirs := Check(c, creatable), Directories(c);
    assert dirs == [c.cacheDir, c.themesDir, c.fontsDir, c.outputDir];
    if r.Some? {
      var i :| 0 <= i < 4 && r.value == MkdirFailed(dirs[i]) && dirs[i] !in creatable
        && forall k :: 0 <= k < i ==> dirs[k] in creatable;
      assert i > 0 ==> dirs[0] in creatable;
      assert i > 1 ==> dirs[1] in creatable;
      assert i > 2 ==> dirs[2] in creatable;
    } else {
      assert c.cacheDir in dirs && c.themesDir in dirs && c.fontsDir in dirs && c.outputDir in dirs;
    }
  }
}
