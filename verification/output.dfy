/** output.py: `OutputManager.generate_filename`. The clock reading that
    `datetime.now()` supplies is a parameter. */
module Output {
  import opened Text
  import opened Paths

  /** A local date and time, to the second. */
  datatype Stamp = Stamp(year: nat, month: nat, day: nat, hour: nat, minute: nat, second: nat)

  /** A reading `datetime.now()` can give, with a four-digit year. */
  predicate ValidStamp(t: Stamp)
  {
    && 1000 <= t.year <= 9999 && 1 <= t.month <= 12 && 1 <= t.day <= 31
    && t.hour < 24 && t.minute < 60 && t.second < 60
  }

  /** `strftime("%Y%m%d_%H%M%S")`: the date, `_`, the time of day. */
  function StampText(t: Stamp): (s: string)
    ensures |s| == 15 && s[8] == '_'
    ensures forall i :: 0 <= i < 15 && i != 8 ==> IsDigit(s[i])
  {
    DateText(t) + "_" + ClockText(t)
  }

  function DateText(t: Stamp): (s: string)
    ensures |s| == 8 && forall i :: 0 <= i < 8 ==> IsDigit(s[i])
  {
    Padded(t.year, 4) + Padded(t.month, 2) + Padded(t.day, 2)
  }

  function ClockText(t: Stamp): (s: string)
    ensures |s| == 6 && forall i :: 0 <= i < 6 ==> IsDigit(s[i])
  {
    Padded(t.hour, 2) + Padded(t.minute, 2) + Padded(t.second, 2)
  }

  /** Reads the fields back from a stamp's text. */
  function ParseStamp(s: string): Stamp
    requires |s| == 15
  {
    var date, clock := s[..8], s[9..];
    Stamp(ParseNat(date[..4]), ParseNat(date[4..6]), ParseNat(date[6..]),
      ParseNat(clock[..2]), ParseNat(clock[2..4]), ParseNat(clock[4..]))
  }

  /** The three parts of a concatenation can be cut back out of it. */
  lemma Pieces(a: string, b: string, c: string)
    ensures (a + b + c)[..|a|] == a
    ensures (a + b + c)[|a|..|a| + |b|] == b
    ensures (a + b + c)[|a| + |b|..] == c
  {
  }

  lemma StampRoundTrip(t: Stamp)
    requires ValidStamp(t)
    ensures ParseStamp(StampText(t)) == t
  {
    Pieces(DateText(t), "_", ClockText(t));
    Pieces(Padded(t.year, 4), Padded(t.month, 2), Padded(t.day, 2));
    Pieces(Padded(t.hour, 2), Padded(t.minute, 2), Padded(t.second, 2));
    assert Pow10(2) == 100 && Pow10(4) == 10000;
    ParsePadded(t.year, 4);
    ParsePadded(t.month, 2);
    ParsePadded(t.day, 2);
    ParsePadded(t.hour, 2);
    ParsePadded(t.minute, 2);
    ParsePadded(t.second, 2);
  }

  /** `city.lower().replace(" ", "_")` */
  function Slug(city: string): (s: string)
    ensures |s| == |city| && ' ' !in s
    ensures forall i :: 0 <= i < |city| ==> s[i] == (if city[i] == ' ' then '_' else LowerChar(city[i]))
  {
    Replace(Lower(city), ' ', '_')
  }

  /** The slug forgets how the city was capitalised. */
  lemma SlugIgnoresCase(city: string)
    ensures Slug(Upper(city)) == Slug(city)
  {
    assert forall i | 0 <= i < |city| :: Slug(Upper(city))[i] == Slug(city)[i];
  }

  /** `{city_slug}_{theme_name}_{timestamp}.{ext}` */
  function PosterName(city: string, theme: string, format: string, t: Stamp): string
  {
    Slug(city) + "_" + theme + "_" + StampText(t) + "." + Lower(format)
  }

  /** `generate_filename`: the poster's path inside `outputDir`. */
  function GenerateFilename(outputDir: Path, city: string, theme: string, format: string, t: Stamp): (r: Path)
    ensures '/' !in city && '/' !in theme && '/' !in format ==>
      r == Path(outputDir.absolute, outputDir.parts + [PosterName(city, theme, format, t)])
    ensures EndsWith(PosterName(city, theme, format, t), "." + Lower(format))
  {
    var name := PosterName(city, theme, format, t);
    NameEnds(city, theme, format, t);
    if '/' !in city && '/' !in theme && '/' !in format then
      NameIsComponent(city, theme, format, t);
      ChildOfComponent(outputDir, name);
      Child(outputDir, name)
    else
      Child(outputDir, name)
  }

  lemma NameEnds(city: string, theme: string, format: string, t: Stamp)
    ensures EndsWith(PosterName(city, theme, format, t), "." + Lower(format))
  {
    var name := PosterName(city, theme, format, t);
    var prefix := Slug(city) + "_" + theme + "_" + StampText(t);
    assert name == prefix + ("." + Lower(format));
    assert name[|name| - |"." + Lower(format)|..] == "." + Lower(format);
  }

  lemma NameIsComponent(city: string, theme: string, format: string, t: Stamp)
    requires '/' !in city && '/' !in theme && '/' !in format
    ensures IsComponent(PosterName(city, theme, format, t))
  {
    LowerKeepsOut(city, '/');
    LowerKeepsOut(format, '/');
    var name := PosterName(city, theme, format, t);
    assert '/' !in Slug(city);
    assert '/' !in StampText(t);
    assert name == Slug(city) + "_" + theme + "_" + StampText(t) + "." + Lower(format);
    assert |name| >= 17;
  }

  /** The time stamp is written into the name where it can be read back:
      just before `.` and the extension. */
  lemma StampInName(city: string, theme: string, format: string, t: Stamp)
    requires ValidStamp(t)
    ensures
      var name := PosterName(city, theme, format, t);
      var end := |name| - |Lower(format)| - 1;
      end >= 15 && ParseStamp(name[end - 15..end]) == t
  {
    var a, b, c := Slug(city) + "_" + theme + "_", StampText(t), "." + Lower(format);
    var name := PosterName(city, theme, format, t);
    assert name == a + b + c;
    Pieces(a, b, c);
    StampRoundTrip(t);
  }

  /** Posters of the same city, theme and format made in different seconds
      never get the same name. */
  lemma DifferentSecondsDifferentNames(city: string, theme: string, format: string, t1: Stamp, t2: Stamp)
    requires ValidStamp(t1) && ValidStamp(t2) && t1 != t2
    ensures PosterName(city, theme, format, t1) != PosterName(city, theme, format, t2)
  {
    StampInName(city, theme, format, t1);
    StampInName(city, theme, format, t2);
  }

  /** A city name starting with `/` makes the name absolute, and pathlib then
      discards the output directory. */
  lemma RootedCityLeavesOutputDir(outputDir: Path, city: string, theme: string, format: string, t: Stamp)
    requires |city| > 0 && city[0] == '/'
    ensures GenerateFilename(outputDir, city, theme, format, t).absolute
    ensures GenerateFilename(outputDir, city, theme, format, t)
      == FromText(PosterName(city, theme, format, t))
  {
    assert PosterName(city, theme, format, t)[0] == Slug(city)[0] == '/';
  }
}
