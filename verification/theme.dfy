/** theme.py: the `Theme` record, its colour validation, and `ThemeManager`
    over a themes directory. A theme file is seen through what `open` and
    `json.load` make of it; the dataclass does not check field types, so a
    theme's fields are JSON values. */
module Themes {
  import opened Common
  import opened Text
  import StringOrder

  /** A JSON value as far as themes care: a string, or anything else. */
  datatype Json = JString(s: string) | JOther

  /** The `Theme` dataclass. */
  datatype Theme = Theme(
    name: Json,
    description: Json,
    bg: Json,
    text: Json,
    gradientColor: Json,
    water: Json,
    parks: Json,
    roadMotorway: Json,
    roadPrimary: Json,
    roadSecondary: Json,
    roadTertiary: Json,
    roadResidential: Json,
    roadDefault: Json)

  /** The colour fields in the order `validate` checks them. */
  const ColorFieldNames: seq<string> := [
    "bg", "text", "gradient_color", "water", "parks",
    "road_motorway", "road_primary", "road_secondary", "road_tertiary",
    "road_residential", "road_default"]

  /** Every keyword the dataclass constructor accepts. */
  const FieldNames: seq<string> := ["name", "description"] + ColorFieldNames

  function ColorFields(t: Theme): (c: seq<Json>)
    ensures |c| == |ColorFieldNames|
  {
    [t.bg, t.text, t.gradientColor, t.water, t.parks,
     t.roadMotorway, t.roadPrimary, t.roadSecondary, t.roadTertiary,
     t.roadResidential, t.roadDefault]
  }

  /** A theme with the dataclass defaults for every field but `name`. */
  function WithDefaults(name: Json): Theme
  {
    Theme(name, JString(""),
      JString("#FFFFFF"), JString("#000000"), JString("#FFFFFF"), JString("#C0C0C0"), JString("#F0F0F0"),
      JString("#0A0A0A"), JString("#1A1A1A"), JString("#2A2A2A"), JString("#3A3A3A"),
      JString("#4A4A4A"), JString("#3A3A3A"))
  }

  predicate IsHexDigit(c: char)
  {
    '0' <= c <= '9' || 'A' <= c <= 'F' || 'a' <= c <= 'f'
  }

  /** `#` followed by exactly six hexadecimal digits. */
  predicate IsHexColor(s: string)
  {
    |s| == 7 && s[0] == '#' && forall i :: 1 <= i < 7 ==> IsHexDigit(s[i])
  }

  /** `re.match(r"^#[0-9A-Fa-f]{6}$", s)` as Python evaluates it: `$` also
      matches just before a newline that ends the string. */
  predicate ColorMatchAsWritten(s: string)
  {
    IsHexColor(s) || (|s| == 8 && s[7] == '\n' && IsHexColor(s[..7]))
  }

  /** The pattern as written lets a colour with a trailing newline through. */
  lemma TrailingNewlineAccepted()
    ensures ColorMatchAsWritten("#FFFFFF\n") && !IsHexColor("#FFFFFF\n")
  {
    assert "#FFFFFF\n"[..7] == "#FFFFFF";
  }

  /** What `validate` raises: `ValueError` for a string that is not a colour,
      `TypeError` (from `re.match`) for a value that is not a string. */
  datatype ColorError = InvalidColor(field: string, value: string) | NotText(field: string)

  predicate ValidColor(v: Json)
  {
    v.JString? && IsHexColor(v.s)
  }

  function CheckColor(field: string, v: Json): Option<ColorError>
  {
    match v
    case JOther => Some(NotText(field))
    case JString(s) => if IsHexColor(s) then None else Some(InvalidColor(field, s))
  }

  /** The loop of `validate` from position `i` on. */
  function FirstInvalid(names: seq<string>, values: seq<Json>, i: nat): (r: Option<ColorError>)
    requires |names| == |values| && i <= |values|
    ensures r.None? <==> forall j :: i <= j < |values| ==> ValidColor(values[j])
    ensures r.Some? ==>
      exists j :: i <= j < |values| && r == CheckColor(names[j], values[j])
        && !ValidColor(values[j]) && forall k :: i <= k < j ==> ValidColor(values[k])
    decreases |values| - i
  {
    if i == |values| then None
    else if CheckColor(names[i], values[i]).Some? then CheckColor(names[i], values[i])
    else FirstInvalid(names, values, i + 1)
  }

  /** `Theme.validate`: `None` when it returns, else the error it raises. */
  function Validate(t: Theme): (r: Option<ColorError>)
    ensures r.None? <==> forall i :: 0 <= i < |ColorFieldNames| ==> ValidColor(ColorFields(t)[i])
    ensures r.Some? ==>
      exists i :: 0 <= i < |ColorFieldNames|
        && r == CheckColor(ColorFieldNames[i], ColorFields(t)[i])
        && !ValidColor(ColorFields(t)[i])
        && forall k :: 0 <= k < i ==> ValidColor(ColorFields(t)[k])
  {
    FirstInvalid(ColorFieldNames, ColorFields(t), 0)
  }

  /** `_default_theme` */
  function DefaultTheme(): (t: Theme)
    ensures t.name == JString("Feature-Based Shading")
    ensures t.description == JString("Default theme with road hierarchy coloring")
    ensures Validate(t).None?
  {
    var t := WithDefaults(JString("Feature-Based Shading"))
      .(description := JString("Default theme with road hierarchy coloring"));
    assert forall i :: 0 <= i < |ColorFieldNames| ==> ValidColor(ColorFields(t)[i]);
    t
  }

  function FieldOr(m: map<string, Json>, key: string, default: Json): Json
  {
    if key in m then m[key] else default
  }

  /** The theme with the given name, description and colour fields, the
      colours in the order of `ColorFieldNames`. */
  function WithColors(name: Json, description: Json, c: seq<Json>): (t: Theme)
    requires |c| == |ColorFieldNames|
    ensures ColorFields(t) == c && t.name == name && t.description == description
  {
    Theme(name, description, c[0], c[1], c[2], c[3], c[4], c[5], c[6], c[7], c[8], c[9], c[10])
  }

  /** `Theme(**data)`: an unknown keyword or a missing `name` raises
      `TypeError`; every other field not given takes its default. */
  function FromFields(m: map<string, Json>): (r: Option<Theme>)
    ensures r.Some? <==> "name" in m && forall k :: k in m ==> k in FieldNames
    ensures r.Some? ==> r.value.name == m["name"]
    ensures r.Some? ==> forall i :: 0 <= i < |ColorFieldNames| ==>
      ColorFields(r.value)[i]
        == (if ColorFieldNames[i] in m then m[ColorFieldNames[i]] else ColorFields(WithDefaults(m["name"]))[i])
  {
    if "name" in m && forall k :: k in m ==> k in FieldNames then
      var d := WithDefaults(m["name"]);
      var defaults := ColorFields(d);
      Some(WithColors(m["name"], FieldOr(m, "description", d.description),
        seq(|ColorFieldNames|, i requires 0 <= i < |ColorFieldNames| => FieldOr(m, ColorFieldNames[i], defaults[i]))))
    else None
  }

  /** A parsed JSON document: an object, or some other JSON value. */
  datatype JsonDoc = Object(fields: map<string, Json>) | NonObject

  /** What opening and parsing a directory entry gives. */
  datatype ThemeFile = Unparsable | Parsed(doc: JsonDoc)

  /** The themes directory, in the order the file system lists it. */
  type Listing = seq<(string, ThemeFile)>

  function Lookup(dir: Listing, fileName: string): (r: Option<ThemeFile>)
    ensures r.None? <==> forall i :: 0 <= i < |dir| ==> dir[i].0 != fileName
  {
    if dir == [] then None
    else if dir[0].0 == fileName then Some(dir[0].1)
    else Lookup(dir[1..], fileName)
  }

  function ThemePath(name: string): string
  {
    name + ".json"
  }

  /** The record `Theme.from_json` builds from the file for `name`, if any. */
  function ParseTheme(dir: Listing, name: string): Option<Theme>
  {
    match Lookup(dir, ThemePath(name))
    case Some(Parsed(Object(m))) => FromFields(m)
    case _ => None
  }

  /** `ThemeManager.load_theme`: never raises. A missing file, a parse or
      constructor error, or a failed validation all give the default. */
  function LoadTheme(dir: Listing, name: string): (t: Theme)
    ensures Validate(t).None?
    ensures Lookup(dir, ThemePath(name)).None? ==> t == DefaultTheme()
    ensures ParseTheme(dir, name).Some? && Validate(ParseTheme(dir, name).value).None? ==>
      t == ParseTheme(dir, name).value
    ensures t == DefaultTheme() || (ParseTheme(dir, name).Some? && t == ParseTheme(dir, name).value)
  {
    match ParseTheme(dir, name)
    case Some(t) => if Validate(t).None? then t else DefaultTheme()
    case None => DefaultTheme()
  }

  /** A theme file that parses and validates is used as it is, and a colour
      it leaves out takes the dataclass default. */
  lemma LoadThemeKeepsFile(dir: Listing, name: string, m: map<string, Json>, i: nat)
    requires Lookup(dir, ThemePath(name)) == Some(Parsed(Object(m)))
    requires FromFields(m).Some? && Validate(FromFields(m).value).None?
    requires i < |ColorFieldNames| && ColorFieldNames[i] !in m
    ensures LoadTheme(dir, name) == FromFields(m).value
    ensures ColorFields(LoadTheme(dir, name))[i] == ColorFields(WithDefaults(m["name"]))[i]
  {
  }

  /** Any failure on the way yields the default theme. */
  lemma LoadThemeFallsBack(dir: Listing, name: string)
    requires ParseTheme(dir, name).None? || Validate(ParseTheme(dir, name).value).Some?
    ensures LoadTheme(dir, name) == DefaultTheme()
  {
  }

  /** `Path(f).stem` for a name ending in `.json`: the name without its last
      suffix, except that a bare `.json` is a hidden file with no suffix. */
  function Stem(f: string): string
  {
    if |f| > 5 then f[..|f| - 5] else f
  }

  /** The entry names of a listing, in its order. */
  function FileNames(dir: Listing): (r: seq<string>)
    ensures |r| == |dir| && forall i :: 0 <= i < |dir| ==> r[i] == dir[i].0
  {
    if dir == [] then [] else [dir[0].0] + FileNames(dir[1..])
  }

  /** The `.json` entries of a listing, each as often as it is listed. */
  function JsonNames(dir: Listing): (r: seq<string>)
    ensures forall i :: 0 <= i < |r| ==> EndsWith(r[i], ".json")
    ensures forall i :: 0 <= i < |dir| && EndsWith(dir[i].0, ".json") ==> dir[i].0 in r
    ensures forall f :: f in r ==> exists i :: 0 <= i < |dir| && dir[i].0 == f
  {
    if dir == [] then []
    else (if EndsWith(dir[0].0, ".json") then [dir[0].0] else []) + JsonNames(dir[1..])
  }

  /** `glob("*.json")` yields each `.json` entry once per listing, and
      nothing else. */
  lemma {:induction false} JsonNamesOnePerFile(dir: Listing)
    ensures multiset(JsonNames(dir)) <= multiset(FileNames(dir))
    ensures forall f :: EndsWith(f, ".json") ==> multiset(JsonNames(dir))[f] == multiset(FileNames(dir))[f]
  {
    if dir != [] {
      JsonNamesOnePerFile(dir[1..]);
      assert FileNames(dir) == [dir[0].0] + FileNames(dir[1..]);
    }
  }

  function Stems(names: seq<string>): (r: seq<string>)
    ensures |r| == |names|
    ensures forall i :: 0 <= i < |names| ==> r[i] == Stem(names[i])
  {
    if names == [] then [] else [Stem(names[0])] + Stems(names[1..])
  }

  /** `ThemeManager.list_themes`: the stems of the `*.json` entries, in the
      order of their sorted file names. */
  function ListThemes(dir: Listing): (r: seq<string>)
    ensures |r| == |JsonNames(dir)|
    ensures forall i :: 0 <= i < |r| ==> r[i] == Stem(StringOrder.Sort(JsonNames(dir))[i])
    ensures forall i, j :: 0 <= i < j < |r| ==>
      StringOrder.Le(StringOrder.Sort(JsonNames(dir))[i], StringOrder.Sort(JsonNames(dir))[j])
  {
    assert |StringOrder.Sort(JsonNames(dir))| == |multiset(JsonNames(dir))|;
    Stems(StringOrder.Sort(JsonNames(dir)))
  }

  /** The order the file system lists the directory in does not matter. */
  lemma ListThemesIgnoresListingOrder(dir1: Listing, dir2: Listing)
    requires multiset(JsonNames(dir1)) == multiset(JsonNames(dir2))
    ensures ListThemes(dir1) == ListThemes(dir2)
  {
    StringOrder.SortIgnoresOrder(JsonNames(dir1), JsonNames(dir2));
  }

  lemma SortTwoNames()
    ensures StringOrder.Sort(["a.json", "a-b.json"]) == ["a-b.json", "a.json"]
  {
    assert !StringOrder.Le(".json", "-b.json");
    assert !StringOrder.Le("a.json", "a-b.json");
    assert StringOrder.Sort(["a-b.json"]) == ["a-b.json"];
    assert StringOrder.Insert("a.json", []) == ["a.json"];
    assert StringOrder.Insert("a.json", ["a-b.json"]) == ["a-b.json", "a.json"];
    assert ["a.json", "a-b.json"][1..] == ["a-b.json"];
  }

  /** The list is ordered by file name, which is not always stem order:
      `a-b.json` sorts before `a.json` although `a` sorts before `a-b`. */
  lemma ListedByFileName()
    ensures ListThemes([("a.json", Unparsable), ("a-b.json", Unparsable)]) == ["a-b", "a"]
    ensures StringOrder.Le("a", "a-b") && !StringOrder.Le("a-b", "a")
  {
    PairNames();
    SortTwoNames();
    PairStems();
    StemOrder();
  }

  lemma PairNames()
    ensures JsonNames([("a.json", Unparsable), ("a-b.json", Unparsable)]) == ["a.json", "a-b.json"]
  {
    var dir: Listing := [("a.json", Unparsable), ("a-b.json", Unparsable)];
    assert EndsWith("a.json", ".json") && EndsWith("a-b.json", ".json");
    assert dir[1..] == [("a-b.json", Unparsable)];
    assert JsonNames(dir[1..][1..]) == [];
    assert JsonNames(dir[1..]) == ["a-b.json"];
  }

  lemma PairStems()
    ensures Stems(["a-b.json", "a.json"]) == ["a-b", "a"]
  {
    assert Stem("a-b.json") == "a-b" && Stem("a.json") == "a";
  }

  lemma StemOrder()
    ensures StringOrder.Le("a", "a-b") && !StringOrder.Le("a-b", "a")
  {
    assert StringOrder.Le("", "-b");
    assert !StringOrder.Le("-b", "");
  }

  /** `get_theme_info`'s result. */
  datatype ThemeInfo = ThemeInfo(name: Json, description: Json)

  /** `ThemeManager.get_theme_info`: the file's own name and description
      where present, `(name, "")` on a missing field or any error. */
  function GetThemeInfo(dir: Listing, name: string): (r: ThemeInfo)
    ensures !(Lookup(dir, ThemePath(name)).Some? && Lookup(dir, ThemePath(name)).value.Parsed?
              && Lookup(dir, ThemePath(name)).value.doc.Object?) ==>
      r == ThemeInfo(JString(name), JString(""))
    ensures Lookup(dir, ThemePath(name)).Some? && Lookup(dir, ThemePath(name)).value.Parsed?
            && Lookup(dir, ThemePath(name)).value.doc.Object? ==>
      var m := Lookup(dir, ThemePath(name)).value.doc.fields;
      && r.name == (if "name" in m then m["name"] else JString(name))
      && r.description == (if "description" in m then m["description"] else JString(""))
  {
    match Lookup(dir, ThemePath(name))
    case Some(Parsed(Object(m))) => ThemeInfo(FieldOr(m, "name", JString(name)), FieldOr(m, "description", JString("")))
    case _ => ThemeInfo(JString(name), JString(""))
  }

  /** For a theme file that loads, the info peek agrees with the theme loaded. */
  lemma InfoMatchesLoadedTheme(dir: Listing, name: string)
    requires ParseTheme(dir, name).Some? && Validate(ParseTheme(dir, name).value).None?
    ensures GetThemeInfo(dir, name)
      == ThemeInfo(LoadTheme(dir, name).name, LoadTheme(dir, name).description)
  {
  }
}
