/** typography.py: the font set and its fallback, the city font's size
    rule, the fonts for the other labels, and the two text formatters.
    Whether a font file exists is an oracle (`present`). The 4-decimal
    formatting of a coordinate is a parameter `show`. */
module Typography {
  import opened Common
  import opened Text
  import opened Paths

  /** `FontProperties` without its size: loaded from a file, or a system
      family at a weight. */
  datatype Font = FileFont(file: Path) | SystemFont(family: string, weight: string)

  /** `FontProperties` with a size in points. */
  datatype SizedFont = SizedFont(face: Font, size: real)

  /** `FontSet` */
  datatype FontSet = FontSet(bold: Font, regular: Font, light: Font)

  /** The files `FontSet.from_files` expects, in the order it checks them. */
  const FontFiles: seq<string> := ["Roboto-Bold.ttf", "Roboto-Regular.ttf", "Roboto-Light.ttf"]

  /** `fonts_dir / name` for each expected file: the file directly inside
      the directory (`FontPathsAreChildren`). */
  function FontPaths(dir: Path): (r: seq<Path>)
    ensures |r| == |FontFiles|
    ensures forall i :: 0 <= i < |r| ==> r[i] == Path(dir.absolute, dir.parts + [FontFiles[i]])
  {
    seq(|FontFiles|, i requires 0 <= i < |FontFiles| => Path(dir.absolute, dir.parts + [FontFiles[i]]))
  }

  /** The font paths are what pathlib's `/` builds. */
  lemma FontPathsAreChildren(dir: Path)
    ensures forall i :: 0 <= i < |FontFiles| ==> FontPaths(dir)[i] == Child(dir, FontFiles[i])
  {
    forall i | 0 <= i < |FontFiles|
      ensures FontPaths(dir)[i] == Child(dir, FontFiles[i])
    {
      assert IsComponent(FontFiles[i]);
      ChildOfComponent(dir, FontFiles[i]);
    }
  }

  /** `FontSet.from_files`: the three Roboto faces, or the first missing
      file (the one the warning names) when any is absent. */
  function FromFiles(dir: Path, present: set<Path>): (r: Result<FontSet, Path>)
    ensures r.Ok? <==> forall i :: 0 <= i < |FontFiles| ==> FontPaths(dir)[i] in present
    ensures r.Ok? ==> r.value == FontSet(FileFont(FontPaths(dir)[0]), FileFont(FontPaths(dir)[1]), FileFont(FontPaths(dir)[2]))
    ensures FontPaths(dir)[0] !in present ==> r == Err(FontPaths(dir)[0])
    ensures FontPaths(dir)[0] in present && FontPaths(dir)[1] !in present ==> r == Err(FontPaths(dir)[1])
    ensures FontPaths(dir)[0] in present && FontPaths(dir)[1] in present ==>
      (FontPaths(dir)[2] !in present ==> r == Err(FontPaths(dir)[2]))
  {
    var paths := FontPaths(dir);
    match FirstMissing(paths, present, 0)
    case Some(i) =>
      assert i > 0 ==> paths[0] in present;
      assert i > 1 ==> paths[1] in present;
      Err(paths[i])
    case None =>
      Ok(FontSet(FileFont(paths[0]), FileFont(paths[1]), FileFont(paths[2])))
  }

  /** `FontSet.fallback` */
  function Fallback(): FontSet
  {
    FontSet(SystemFont("monospace", "bold"), SystemFont("monospace", "normal"), SystemFont("monospace", "light"))
  }

  /** `TypographyManager`: its font set, and whether it warned that it fell back. */
  datatype Manager = Manager(fonts: FontSet, usedFallback: bool)

  /** `TypographyManager.__init__` */
  function NewManager(dir: Path, present: set<Path>): (m: Manager)
    ensures m.usedFallback <==> exists i :: 0 <= i < |FontFiles| && FontPaths(dir)[i] !in present
    ensures m.usedFallback ==> m.fonts == Fallback()
    ensures !m.usedFallback ==> m.fonts == FromFiles(dir, present).value
  {
    match FromFiles(dir, present)
    case Ok(fonts) => Manager(fonts, false)
    case Err(_) => Manager(Fallback(), true)
  }

  /** A font set is either entirely loaded from files or entirely the
      monospace fallback. */
  predicate Uniform(fs: FontSet)
  {
    (fs.bold.FileFont? && fs.regular.FileFont? && fs.light.FileFont?) || fs == Fallback()
  }

  /** The manager never mixes Roboto faces with system ones. */
  lemma ManagerFontsUniform(dir: Path, present: set<Path>)
    ensures Uniform(NewManager(dir, present).fonts)
  {
  }

  /** The size rule of `get_city_font`: names longer than ten characters
      shrink in proportion to their length, but not below 24 points. */
  function CitySize(name: string, base: real): (size: real)
    ensures |name| <= 10 ==> size == base
    ensures |name| > 10 ==> size >= 24.0
  {
    if |name| > 10 then Max(base * (10.0 / (|name| as real)), 24.0) else base
  }

  /** The size of a long name without the division: it is at least the
      floor and at least ten base-size characters wide, and it is one of
      the two, so it is `max(base * 10 / len, 24)`. */
  lemma CitySizeRule(name: string, base: real)
    requires |name| > 10
    ensures CitySize(name, base) >= 24.0
    ensures CitySize(name, base) * (|name| as real) >= 10.0 * base
    ensures CitySize(name, base) == 24.0 || CitySize(name, base) * (|name| as real) == 10.0 * base
  {
    var n := |name| as real;
    var scaled := base * (10.0 / n);
    assert scaled * n == 10.0 * base;
    if 24.0 >= scaled {
      assert 24.0 * n >= scaled * n;
    }
  }

  /** A twenty-character name at the base size of 60 points is set at 30. */
  lemma TwentyCharacterName(name: string)
    requires |name| == 20
    ensures CitySize(name, CityBaseSize) == 30.0
  {
  }

  /** Until the 24-point floor is reached, a long name takes the width of
      ten characters at the base size. */
  lemma CityWidthConstant(name: string, base: real)
    requires |name| > 10 && CitySize(name, base) > 24.0
    ensures CitySize(name, base) * (|name| as real) == 10.0 * base
  {
  }

  /** Scaling by ten over a length of at least ten shrinks the size, and
      shrinks it more for a longer name. */
  lemma ShrinkFactor(n1: nat, n2: nat, base: real)
    requires 10 <= n1 <= n2 && base >= 0.0
    ensures base * (10.0 / (n2 as real)) <= base * (10.0 / (n1 as real)) <= base
  {
    assert 10.0 / (n2 as real) <= 10.0 / (n1 as real) <= 1.0 by {
      assert (10.0 / (n2 as real)) * (n2 as real) == 10.0;
      assert (10.0 / (n1 as real)) * (n1 as real) == 10.0;
    }
  }

  /** For a base size of at least the floor, a longer name never gets a
      larger font, and no name gets more than the base size. */
  lemma {:induction false} CitySizeMonotone(name1: string, name2: string, base: real)
    requires |name1| <= |name2| && base >= 24.0
    ensures CitySize(name2, base) <= CitySize(name1, base) <= base
  {
    if |name1| > 10 {
      LongNamesOrdered(name1, name2, base);
    } else if |name2| > 10 {
      LongNameAtMostBase(name2, base);
    }
  }

  lemma LongNameAtMostBase(name: string, base: real)
    requires |name| > 10 && base >= 24.0
    ensures CitySize(name, base) <= base
  {
    ShrinkFactor(|name|, |name|, base);
  }

  lemma LongNamesOrdered(name1: string, name2: string, base: real)
    requires 10 < |name1| <= |name2| && base >= 24.0
    ensures CitySize(name2, base) <= CitySize(name1, base) <= base
  {
    FlooredShrink(|name1|, |name2|, base);
  }

  lemma FlooredShrink(n1: nat, n2: nat, base: real)
    requires 10 <= n1 <= n2 && base >= 24.0
    ensures Max(base * (10.0 / (n2 as real)), 24.0) <= Max(base * (10.0 / (n1 as real)), 24.0) <= base
  {
    ShrinkFactor(n1, n2, base);
    FloorMonotone(base * (10.0 / (n2 as real)), base * (10.0 / (n1 as real)), base);
  }

  /** Raising both sizes to the 24-point floor keeps their order and the
      base size as a bound. */
  lemma FloorMonotone(small: real, large: real, base: real)
    requires small <= large <= base && base >= 24.0
    ensures Max(small, 24.0) <= Max(large, 24.0) <= base
  {
  }

  /** The default sizes of the four label fonts. */
  const CityBaseSize := 60.0
  const CountrySize := 22.0
  const CoordsSize := 14.0
  const AttributionSize := 8.0

  /** `FontProperties.get_file()`: the file of a loaded font, `None` for a
      system font. */
  function GetFile(f: Font): Option<Path>
  {
    match f
    case FileFont(p) => Some(p)
    case SystemFont(_, _) => None
  }

  /** The resizing step of the four `get_*_font` methods as written: the
      `hasattr(..., "get_file")` test holds for every `FontProperties`, so the
      file branch is always taken and `str(None)` becomes the file name. */
  function ResizedAsWritten(face: Font, size: real): (r: SizedFont)
    ensures face.FileFont? ==> r == SizedFont(face, size)
  {
    match GetFile(face)
    case Some(p) => SizedFont(FileFont(p), size)
    case None => SizedFont(FileFont(FromText("None")), size)
  }

  function CityFontAsWritten(fs: FontSet, name: string, base: real): SizedFont
  {
    ResizedAsWritten(fs.bold, CitySize(name, base))
  }

  /** As written, a manager on the fallback fonts asks for a font file
      called `None` instead of the monospace family. */
  lemma FallbackCityFontIsFileNone(name: string, base: real)
    ensures CityFontAsWritten(Fallback(), name, base).face == FileFont(Path(false, ["None"]))
    ensures CityFontAsWritten(Fallback(), name, base).face != Fallback().bold
  {
    ComponentText("None");
  }

  /** The resizing step as intended: keep a loaded file, otherwise the
      monospace family at the label's weight. */
  function Resized(face: Font, weight: string, size: real): (r: SizedFont)
    ensures r.size == size
    ensures face.FileFont? ==> r.face == face
    ensures face.SystemFont? ==> r.face == SystemFont("monospace", weight)
    ensures GetFile(r.face) == GetFile(face)
  {
    if face.FileFont? then SizedFont(face, size) else SizedFont(SystemFont("monospace", weight), size)
  }

  /** `get_city_font` */
  function CityFont(fs: FontSet, name: string, base: real): SizedFont
  {
    Resized(fs.bold, "bold", CitySize(name, base))
  }

  /** `get_country_font` */
  function CountryFont(fs: FontSet, size: real): SizedFont
  {
    Resized(fs.light, "light", size)
  }

  /** `get_coords_font` */
  function CoordsFont(fs: FontSet, size: real): SizedFont
  {
    Resized(fs.regular, "normal", size)
  }

  /** `get_attribution_font` */
  function AttributionFont(fs: FontSet, size: real): SizedFont
  {
    Resized(fs.light, "light", size)
  }

  /** Every label font keeps the manager's face for its weight and only
      changes the size; where the fonts were loaded from files, the intended
      fonts agree with the code as written. */
  lemma LabelFontsKeepFaces(fs: FontSet, name: string, base: real, size: real)
    requires Uniform(fs)
    ensures CityFont(fs, name, base) == SizedFont(fs.bold, CitySize(name, base))
    ensures CountryFont(fs, size) == SizedFont(fs.light, size)
    ensures CoordsFont(fs, size) == SizedFont(fs.regular, size)
    ensures AttributionFont(fs, size) == SizedFont(fs.light, size)
    ensures fs.bold.FileFont? ==> CityFont(fs, name, base) == CityFontAsWritten(fs, name, base)
  {
  }

  /** One-character strings: `list(s)`. */
  function Chars(s: string): (r: seq<string>)
    ensures |r| == |s|
    ensures forall i :: 0 <= i < |s| ==> r[i] == [s[i]]
  {
    if s == [] then [] else [[s[0]]] + Chars(s[1..])
  }

  /** `r` is `s` with two spaces between consecutive characters. */
  predicate Spaced(r: string, s: string)
  {
    && |r| == (if |s| == 0 then 0 else 3 * |s| - 2)
    && (forall i :: 0 <= i < |s| ==> r[3 * i] == s[i])
    && (forall i :: 0 <= i < |s| - 1 ==> r[3 * i + 1] == ' ' && r[3 * i + 2] == ' ')
  }

  /** Prefixing a character and two spaces extends the layout by one character. */
  lemma SpacedCons(c: char, rest: string, s: string)
    requires s != [] && Spaced(rest, s)
    ensures Spaced([c] + "  " + rest, [c] + s)
  {
    var r, t := [c] + "  " + rest, [c] + s;
    forall i | 1 <= i < |t|
      ensures r[3 * i] == t[i]
    {
      var j := i - 1;
      assert r[3 * i] == rest[3 * j];
    }
    forall i | 1 <= i < |t| - 1
      ensures r[3 * i + 1] == ' ' && r[3 * i + 2] == ' '
    {
      var j := i - 1;
      assert r[3 * i + 1] == rest[3 * j + 1] && r[3 * i + 2] == rest[3 * j + 2];
    }
  }

  /** `"  ".join(list(s))`: character `i` at position `3i`, two spaces between. */
  lemma {:induction false} SpacedLayout(s: string)
    ensures Spaced(Join("  ", Chars(s)), s)
  {
    if |s| >= 2 {
      var cs, rest := Chars(s), Join("  ", Chars(s[1..]));
      SpacedLayout(s[1..]);
      assert cs[1..] == Chars(s[1..]);
      assert Join("  ", cs) == [s[0]] + "  " + rest by {
        assert cs[0] == [s[0]];
      }
      SpacedCons(s[0], rest, s[1..]);
      assert [s[0]] + s[1..] == s;
    }
  }

  /** `format_city_name`: the upper-cased name with two spaces between letters. */
  function FormatCityName(city: string): (r: string)
    ensures |r| == (if |city| == 0 then 0 else 3 * |city| - 2)
    ensures forall i :: 0 <= i < |city| ==> r[3 * i] == UpperChar(city[i])
    ensures forall i :: 0 <= i < |city| - 1 ==> r[3 * i + 1] == ' ' && r[3 * i + 2] == ' '
  {
    SpacedLayout(Upper(city));
    Join("  ", Chars(Upper(city)))
  }

  /** Every third character, starting with the first. */
  function EveryThird(s: string): (r: string)
    ensures |r| == (|s| + 2) / 3
    ensures forall i :: 0 <= i < |r| ==> r[i] == s[3 * i]
    decreases |s|
  {
    if |s| <= 3 then (if s == [] then [] else [s[0]])
    else [s[0]] + EveryThird(s[3..])
  }

  /** The spaced name gives the upper-cased name back. */
  lemma FormatCityNameInverse(city: string)
    ensures EveryThird(FormatCityName(city)) == Upper(city)
  {
    var r := FormatCityName(city);
    assert |EveryThird(r)| == |city|;
  }

  datatype Hemisphere = North | South | East | West

  /** The parts `format_coordinates` prints: absolute values and hemispheres. */
  datatype CoordinateText = CoordinateText(lat: real, latDir: Hemisphere, lon: real, lonDir: Hemisphere)

  /** `format_coordinates` before the numbers are rounded to text: zero
      counts as north and east. */
  function CoordinateParts(lat: real, lon: real): (c: CoordinateText)
    ensures c.lat >= 0.0 && c.lon >= 0.0
    ensures c.latDir == North <==> lat >= 0.0
    ensures c.latDir == South <==> lat < 0.0
    ensures c.lonDir == East <==> lon >= 0.0
    ensures c.lonDir == West <==> lon < 0.0
  {
    CoordinateText(Abs(lat), if lat >= 0.0 then North else South, Abs(lon), if lon >= 0.0 then East else West)
  }

  /** Reading the printed parts back as signed degrees. */
  function Signed(c: CoordinateText): Point
  {
    Point(if c.latDir == South then -c.lat else c.lat, if c.lonDir == West then -c.lon else c.lon)
  }

  /** No information but the rounding is lost. */
  lemma CoordinatePartsRoundTrip(lat: real, lon: real)
    ensures Signed(CoordinateParts(lat, lon)) == Point(lat, lon)
  {
  }

  function HemisphereLetter(h: Hemisphere): string
  {
    match h
    case North => "N"
    case South => "S"
    case East => "E"
    case West => "W"
  }

  /** `format_coordinates`, with `show` for the `:.4f` formatting. */
  function FormatCoordinates(show: real -> string, lat: real, lon: real): string
  {
    var c := CoordinateParts(lat, lon);
    show(c.lat) + "° " + HemisphereLetter(c.latDir) + " / " + show(c.lon) + "° " + HemisphereLetter(c.lonDir)
  }
}
