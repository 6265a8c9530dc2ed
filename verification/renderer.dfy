/** renderer.py: `StandardRenderer`'s decisions. These are the road
    hierarchy styling, the crop window that gives the figure's aspect
    ratio, the fade bands, the label texts and fonts, the polygon layers,
    and the save options. Drawing itself is matplotlib's business and is
    not modelled: a render yields the `Poster` plan it would draw. */
module Renderer {
  import opened Common
  import opened Text
  import opened Themes
  import opened Typography

  /** An edge's `highway` attribute as OSMnx stores it: absent, one value,
      or a list of values. */
  datatype HighwayTag = Absent | Single(value: string) | Many(values: seq<string>)

  /** A node of the projected graph, in metres. */
  datatype Node = Node(x: real, y: real)

  datatype Graph = Graph(nodes: seq<Node>, edges: seq<HighwayTag>)

  /** `data.get("highway", "unclassified")`, then the first of a list, or
      `"unclassified"` for an empty one. */
  function Highway(tag: HighwayTag): string
  {
    match tag
    case Absent => "unclassified"
    case Single(h) => h
    case Many(hs) => if hs == [] then "unclassified" else hs[0]
  }

  /** The road hierarchy: one colour per tier. */
  datatype Tier = Motorway | Primary | Secondary | Tertiary | Residential | Other

  /** The classification both styling loops share. */
  function TierOf(h: string): (t: Tier)
    ensures t == Motorway <==> h in {"motorway", "motorway_link"}
    ensures t == Primary <==> h in {"trunk", "trunk_link", "primary", "primary_link"}
    ensures t == Secondary <==> h in {"secondary", "secondary_link"}
    ensures t == Tertiary <==> h in {"tertiary", "tertiary_link"}
    ensures t == Residential <==> h in {"residential", "living_street", "unclassified"}
  {
    if h == "motorway" || h == "motorway_link" then Motorway
    else if h == "trunk" || h == "trunk_link" || h == "primary" || h == "primary_link" then Primary
    else if h == "secondary" || h == "secondary_link" then Secondary
    else if h == "tertiary" || h == "tertiary_link" then Tertiary
    else if h == "residential" || h == "living_street" || h == "unclassified" then Residential
    else Other
  }

  function TierColor(t: Theme, tier: Tier): Json
  {
    match tier
    case Motorway => t.roadMotorway
    case Primary => t.roadPrimary
    case Secondary => t.roadSecondary
    case Tertiary => t.roadTertiary
    case Residential => t.roadResidential
    case Other => t.roadDefault
  }

  /** Line widths in points; residential roads share the default width. */
  function TierWidth(tier: Tier): real
  {
    match tier
    case Motorway => 1.2
    case Primary => 1.0
    case Secondary => 0.8
    case Tertiary => 0.6
    case Residential => 0.4
    case Other => 0.4
  }

  /** The body of `_get_edge_colors`'s loop: the `if`/`elif` chain
      over lists of highway values. */
  method EdgeColor(highway: string, t: Theme) returns (color: Json)
    ensures color == TierColor(t, TierOf(highway))
  {
    if highway in ["motorway", "motorway_link"] {
      color := t.roadMotorway;
    } else if highway in ["trunk", "trunk_link", "primary", "primary_link"] {
      color := t.roadPrimary;
    } else if highway in ["secondary", "secondary_link"] {
      color := t.roadSecondary;
    } else if highway in ["tertiary", "tertiary_link"] {
      color := t.roadTertiary;
    } else if highway in ["residential", "living_street", "unclassified"] {
      color := t.roadResidential;
    } else {
      color := t.roadDefault;
    }
  }

  /** `_get_edge_colors`: one colour per edge, in edge order. */
  method EdgeColors(edges: seq<HighwayTag>, t: Theme) returns (colors: seq<Json>)
    ensures |colors| == |edges|
    ensures forall i :: 0 <= i < |edges| ==> colors[i] == TierColor(t, TierOf(Highway(edges[i])))
  {
    colors := [];
    var i := 0;
    while i < |edges|
      invariant 0 <= i <= |edges|
      invariant |colors| == i
      invariant forall j :: 0 <= j < i ==> colors[j] == TierColor(t, TierOf(Highway(edges[j])))
    {
      var highway := Highway(edges[i]);
      var color := EdgeColor(highway, t);
      colors := colors + [color];
      i := i + 1;
    }
  }

  /** The body of `_get_edge_widths`'s loop. */
  method EdgeWidth(highway: string) returns (width: real)
    ensures width == TierWidth(TierOf(highway))
  {
    if highway in ["motorway", "motorway_link"] {
      width := 1.2;
    } else if highway in ["trunk", "trunk_link", "primary", "primary_link"] {
      width := 1.0;
    } else if highway in ["secondary", "secondary_link"] {
      width := 0.8;
    } else if highway in ["tertiary", "tertiary_link"] {
      width := 0.6;
    } else {
      assert TierOf(highway) in {Residential, Other};
      width := 0.4;
    }
  }

  /** `_get_edge_widths`: one width per edge, in edge order. */
  method EdgeWidths(edges: seq<HighwayTag>) returns (widths: seq<real>)
    ensures |widths| == |edges|
    ensures forall i :: 0 <= i < |edges| ==> widths[i] == TierWidth(TierOf(Highway(edges[i])))
  {
    widths := [];
    var i := 0;
    while i < |edges|
      invariant 0 <= i <= |edges|
      invariant |widths| == i
      invariant forall j :: 0 <= j < i ==> widths[j] == TierWidth(TierOf(Highway(edges[j])))
    {
      var highway := Highway(edges[i]);
      var width := EdgeWidth(highway);
      widths := widths + [width];
      i := i + 1;
    }
  }

  /** Higher tiers are drawn strictly wider, down to residential streets. */
  lemma WidthFollowsHierarchy(h1: string, h2: string)
    requires TierOf(h1) != TierOf(h2)
    requires TierOf(h1) in {Motorway, Primary, Secondary, Tertiary, Residential}
    requires TierOf(h2) in {Motorway, Primary, Secondary, Tertiary, Residential}
    ensures TierWidth(TierOf(h1)) != TierWidth(TierOf(h2))
    ensures TierWidth(TierOf(h1)) > TierWidth(TierOf(h2)) <==> Rank(TierOf(h1)) < Rank(TierOf(h2))
  {
  }

  function Rank(tier: Tier): nat
  {
    match tier
    case Motorway => 0
    case Primary => 1
    case Secondary => 2
    case Tertiary => 3
    case Residential => 4
    case Other => 5
  }

  /** A missing tag, an empty list and `"unclassified"` all style as a
      residential street, and a list styles as its first entry. */
  lemma UntaggedIsResidential(rest: seq<string>, h: string)
    ensures TierOf(Highway(Absent)) == Residential
    ensures TierOf(Highway(Many([]))) == Residential
    ensures Highway(Many([h] + rest)) == Highway(Single(h))
  {
  }

  function MinOf(s: seq<real>): (m: real)
    requires s != []
    ensures m in s && forall i :: 0 <= i < |s| ==> m <= s[i]
  {
    if |s| == 1 then s[0]
    else var rest := MinOf(s[1..]); if s[0] <= rest then s[0] else rest
  }

  function MaxOf(s: seq<real>): (m: real)
    requires s != []
    ensures m in s && forall i :: 0 <= i < |s| ==> s[i] <= m
  {
    if |s| == 1 then s[0]
    else var rest := MaxOf(s[1..]); if s[0] >= rest then s[0] else rest
  }

  function Xs(nodes: seq<Node>): (r: seq<real>)
    ensures |r| == |nodes| && forall i :: 0 <= i < |nodes| ==> r[i] == nodes[i].x
  {
    if nodes == [] then [] else [nodes[0].x] + Xs(nodes[1..])
  }

  function Ys(nodes: seq<Node>): (r: seq<real>)
    ensures |r| == |nodes| && forall i :: 0 <= i < |nodes| ==> r[i] == nodes[i].y
  {
    if nodes == [] then [] else [nodes[0].y] + Ys(nodes[1..])
  }

  /** Axis limits: `(xlim, ylim)`. */
  datatype Window = Window(xlo: real, xhi: real, ylo: real, yhi: real)

  /** The nodes' bounding box. */
  function Bounds(nodes: seq<Node>): (b: Window)
    requires nodes != []
    ensures b.xlo <= b.xhi && b.ylo <= b.yhi
    ensures forall i :: 0 <= i < |nodes| ==>
      b.xlo <= nodes[i].x <= b.xhi && b.ylo <= nodes[i].y <= b.yhi
  {
    var xs, ys := Xs(nodes), Ys(nodes);
    Window(MinOf(xs), MaxOf(xs), MinOf(ys), MaxOf(ys))
  }

  /** The arithmetic of `_get_crop_limits` on a bounding box of positive height. */
  function Crop(b: Window, figWidth: real, figHeight: real): Window
    requires figWidth > 0.0 && figHeight > 0.0 && b.ylo < b.yhi
  {
    var xRange, yRange := b.xhi - b.xlo, b.yhi - b.ylo;
    var desired := figWidth / figHeight;
    var current := xRange / yRange;
    var cx, cy := (b.xlo + b.xhi) / 2.0, (b.ylo + b.yhi) / 2.0;
    if current > desired then
      var w := yRange * desired;
      Window(cx - w / 2.0, cx + w / 2.0, b.ylo, b.yhi)
    else if current < desired then
      var h := xRange / desired;
      Window(b.xlo, b.xhi, cy - h / 2.0, cy + h / 2.0)
    else
      b
  }

  /** `_get_crop_limits`: the largest window of the figure's aspect ratio,
      centred on the bounding box and inside it. `None` when it raises:
      `min` of no nodes, or a bounding box of zero height (division by zero). */
  function CropLimits(nodes: seq<Node>, figWidth: real, figHeight: real): (r: Option<Window>)
    requires figWidth > 0.0 && figHeight > 0.0
    ensures r.None? <==> nodes == [] || Bounds(nodes).ylo == Bounds(nodes).yhi
  {
    if nodes == [] then None
    else
      var b := Bounds(nodes);
      if b.ylo == b.yhi then None else Some(Crop(b, figWidth, figHeight))
  }

  /** A box that is too wide keeps its height and loses width. */
  lemma TooWide(xRange: real, yRange: real, figWidth: real, figHeight: real)
    requires yRange > 0.0 && figWidth > 0.0 && figHeight > 0.0 && xRange >= 0.0
    requires xRange / yRange > figWidth / figHeight
    ensures yRange * (figWidth / figHeight) <= xRange
    ensures (yRange * (figWidth / figHeight)) * figHeight == yRange * figWidth
  {
    var desired, current := figWidth / figHeight, xRange / yRange;
    assert desired * figHeight == figWidth;
    assert current * yRange == xRange;
    assert yRange * desired < yRange * current;
  }

  /** A box that is too tall keeps its width and loses height. */
  lemma TooTall(xRange: real, yRange: real, figWidth: real, figHeight: real)
    requires yRange > 0.0 && figWidth > 0.0 && figHeight > 0.0 && xRange >= 0.0
    requires xRange / yRange < figWidth / figHeight
    ensures xRange / (figWidth / figHeight) <= yRange
    ensures xRange * figHeight == (xRange / (figWidth / figHeight)) * figWidth
  {
    var desired, current := figWidth / figHeight, xRange / yRange;
    assert desired * figHeight == figWidth;
    assert current * yRange == xRange;
    assert current * yRange <= desired * yRange;
    assert (xRange / desired) * desired == xRange;
  }

  /** A box that already fits is kept. */
  lemma Fits(xRange: real, yRange: real, figWidth: real, figHeight: real)
    requires yRange > 0.0 && figHeight > 0.0
    requires xRange / yRange == figWidth / figHeight
    ensures xRange * figHeight == yRange * figWidth
  {
    assert (xRange / yRange) * yRange == xRange;
    assert (figWidth / figHeight) * figHeight == figWidth;
  }

  /** What `Crop` keeps of a box: the aspect ratio, the centre, one full
      extent, and containment. */
  predicate Fitted(w: Window, b: Window, figWidth: real, figHeight: real)
  {
    && (w.xhi - w.xlo) * figHeight == (w.yhi - w.ylo) * figWidth
    && w.xlo + w.xhi == b.xlo + b.xhi && w.ylo + w.yhi == b.ylo + b.yhi
    && b.xlo <= w.xlo <= w.xhi <= b.xhi && b.ylo <= w.ylo <= w.yhi <= b.yhi
    && ((w.xlo == b.xlo && w.xhi == b.xhi) || (w.ylo == b.ylo && w.yhi == b.yhi))
  }

  lemma CropFitted(b: Window, figWidth: real, figHeight: real)
    requires figWidth > 0.0 && figHeight > 0.0 && b.ylo < b.yhi && b.xlo <= b.xhi
    ensures Fitted(Crop(b, figWidth, figHeight), b, figWidth, figHeight)
  {
    var xRange, yRange := b.xhi - b.xlo, b.yhi - b.ylo;
    var cx, cy := (b.xlo + b.xhi) / 2.0, (b.ylo + b.yhi) / 2.0;
    if xRange / yRange > figWidth / figHeight {
      TooWide(xRange, yRange, figWidth, figHeight);
      var w := yRange * (figWidth / figHeight);
      assert Crop(b, figWidth, figHeight) == Window(cx - w / 2.0, cx + w / 2.0, b.ylo, b.yhi);
    } else if xRange / yRange < figWidth / figHeight {
      TooTall(xRange, yRange, figWidth, figHeight);
      var h := xRange / (figWidth / figHeight);
      assert Crop(b, figWidth, figHeight) == Window(b.xlo, b.xhi, cy - h / 2.0, cy + h / 2.0);
    } else {
      Fits(xRange, yRange, figWidth, figHeight);
      assert Crop(b, figWidth, figHeight) == b;
    }
  }

  /** The crop window has the figure's aspect ratio, keeps the bounding
      box's centre and one of its full extents, and lies inside it. */
  lemma CropWindowFits(nodes: seq<Node>, figWidth: real, figHeight: real)
    requires figWidth > 0.0 && figHeight > 0.0
    ensures CropLimits(nodes, figWidth, figHeight).Some? ==>
      Fitted(CropLimits(nodes, figWidth, figHeight).value, Bounds(nodes), figWidth, figHeight)
  {
    if CropLimits(nodes, figWidth, figHeight).Some? {
      CropFitted(Bounds(nodes), figWidth, figHeight);
    }
  }

  /** `_create_gradient_fade`'s vertical extent: the bottom quarter for
      `"bottom"`, the top quarter for any other location. */
  function FadeBand(location: string, ylo: real, yhi: real): (band: (real, real))
    ensures location == "bottom" ==> band.0 == ylo
    ensures location != "bottom" ==> band.1 == yhi
    ensures band.1 - band.0 == (yhi - ylo) * 0.25
  {
    var yRange := yhi - ylo;
    if location == "bottom" then (ylo + yRange * 0.0, ylo + yRange * 0.25)
    else (ylo + yRange * 0.75, ylo + yRange * 1.0)
  }

  /** Row `k` (from the bottom) of the fade's opacity ramp, `np.linspace`
      over 256 rows: opaque at the poster's edge, clear towards the middle. */
  function FadeAlpha(location: string, k: nat): (a: real)
    requires k < 256
    ensures 0.0 <= a <= 1.0
    ensures location == "bottom" ==> (k == 0 <==> a == 1.0) && (k == 255 <==> a == 0.0)
    ensures location != "bottom" ==> (k == 255 <==> a == 1.0) && (k == 0 <==> a == 0.0)
  {
    if location == "bottom" then 1.0 - (k as real) / 255.0 else (k as real) / 255.0
  }

  /** The two bands never overlap on a window of positive height. */
  lemma FadeBandsApart(ylo: real, yhi: real)
    requires ylo < yhi
    ensures FadeBand("bottom", ylo, yhi).1 < FadeBand("top", ylo, yhi).0
    ensures ylo <= FadeBand("bottom", ylo, yhi).1 && FadeBand("top", ylo, yhi).0 <= yhi
  {
  }

  /** `country_label if country_label else country`, upper-cased: an empty
      override counts as none. */
  function CountryText(country: string, countryLabel: Option<string>): (r: string)
    ensures countryLabel.Some? && countryLabel.value != [] ==> r == Upper(countryLabel.value)
    ensures countryLabel.None? || countryLabel.value == [] ==> r == Upper(country)
  {
    Upper(if countryLabel.Some? && countryLabel.value != [] then countryLabel.value else country)
  }

  const Attribution := "© OpenStreetMap contributors"

  /** One text element: where it is anchored (axes fractions), what it says,
      its font, its colour and opacity. */
  datatype Label = Label(x: real, y: real, text: string, font: SizedFont, color: Json, alpha: real)

  /** `_render_typography`: the city, country, coordinates and attribution
      labels, from top to bottom. */
  function Labels(fs: FontSet, show: real -> string, city: string, country: string, p: Point, t: Theme,
                  countryLabel: Option<string>): (r: seq<Label>)
    ensures |r| == 4
    ensures r[0].text == FormatCityName(city) && r[0].font == CityFont(fs, city, CityBaseSize)
    ensures r[1].text == CountryText(country, countryLabel) && r[1].font == CountryFont(fs, CountrySize)
    ensures r[2].text == FormatCoordinates(show, p.lat, p.lon) && r[2].font == CoordsFont(fs, CoordsSize)
    ensures r[3].text == Attribution && r[3].font == AttributionFont(fs, AttributionSize)
    ensures forall i :: 0 <= i < 4 ==> r[i].color == t.text
    ensures r[0].y > r[1].y > r[2].y > r[3].y
  {
    [ Label(0.5, 0.14, FormatCityName(city), CityFont(fs, city, CityBaseSize), t.text, 1.0),
      Label(0.5, 0.10, CountryText(country, countryLabel), CountryFont(fs, CountrySize), t.text, 1.0),
      Label(0.5, 0.07, FormatCoordinates(show, p.lat, p.lon), CoordsFont(fs, CoordsSize), t.text, 0.7),
      Label(0.98, 0.02, Attribution, AttributionFont(fs, AttributionSize), t.text, 0.5) ]
  }

  /** A feature's geometry type. */
  datatype Shape = Polygon | MultiPolygon | OtherShape

  /** The polygons of a feature layer that `_render_features` draws: none
      for a missing or empty layer. */
  function Polygons(layer: Option<seq<Shape>>): (r: seq<Shape>)
    ensures forall i :: 0 <= i < |r| ==> r[i] != OtherShape
    ensures layer.None? ==> r == []
    ensures layer.Some? ==> multiset(r) == multiset(layer.value) - multiset{OtherShape}[OtherShape := multiset(layer.value)[OtherShape]]
  {
    if layer.None? then [] else KeepPolygons(layer.value)
  }

  function KeepPolygons(s: seq<Shape>): (r: seq<Shape>)
    ensures forall i :: 0 <= i < |r| ==> r[i] != OtherShape
    ensures multiset(r) == multiset(s) - multiset{OtherShape}[OtherShape := multiset(s)[OtherShape]]
  {
    if s == [] then []
    else
      var rest := KeepPolygons(s[1..]);
      KeepStep(s, rest);
      (if s[0] == OtherShape then [] else [s[0]]) + rest
  }

  /** Filtering the head and then the tail filters the whole. */
  lemma KeepStep(s: seq<Shape>, rest: seq<Shape>)
    requires s != []
    requires multiset(rest) == multiset(s[1..]) - multiset{OtherShape}[OtherShape := multiset(s[1..])[OtherShape]]
    ensures multiset((if s[0] == OtherShape then [] else [s[0]]) + rest)
      == multiset(s) - multiset{OtherShape}[OtherShape := multiset(s)[OtherShape]]
  {
    assert s == [s[0]] + s[1..];
  }

  /** `savefig`'s options: the format lower-cased, and a resolution only for PNG. */
  function ExportDpi(format: string, dpi: int): (r: Option<int>)
    ensures r.Some? <==> Lower(format) == "png"
    ensures r.Some? ==> r.value == dpi
  {
    if Lower(format) == "png" then Some(dpi) else None
  }

  /** A filled polygon layer: its shapes, face colour and stacking order. */
  datatype Layer = Layer(shapes: seq<Shape>, color: Json, zorder: int)

  /** Everything `render` would draw and how it would save it. */
  datatype Poster = Poster(
    background: Json,
    water: Layer,
    parks: Layer,
    edgeColors: seq<Json>,
    edgeWidths: seq<real>,
    window: Window,
    bottomFade: (real, real),
    topFade: (real, real),
    fadeColor: Json,
    labels: seq<Label>,
    format: string,
    dpi: Option<int>)

  /** `StandardRenderer.render` on an already projected graph. `None` when
      computing the crop window raises. */
  method Render(
    fs: FontSet, figWidth: real, figHeight: real, dpi: int, show: real -> string,
    g: Graph, water: Option<seq<Shape>>, parks: Option<seq<Shape>>,
    city: string, country: string, p: Point, t: Theme, format: string, countryLabel: Option<string>
  ) returns (r: Option<Poster>)
    requires figWidth > 0.0 && figHeight > 0.0
    ensures r.None? <==> CropLimits(g.nodes, figWidth, figHeight).None?
    ensures r.Some? ==>
      && r.value.window == CropLimits(g.nodes, figWidth, figHeight).value
      && |r.value.edgeColors| == |r.value.edgeWidths| == |g.edges|
      && (forall i :: 0 <= i < |g.edges| ==>
            r.value.edgeColors[i] == TierColor(t, TierOf(Highway(g.edges[i])))
            && r.value.edgeWidths[i] == TierWidth(TierOf(Highway(g.edges[i]))))
      && r.value.background == t.bg && r.value.fadeColor == t.gradientColor
      && r.value.water == Layer(Polygons(water), t.water, 1)
      && r.value.parks == Layer(Polygons(parks), t.parks, 2)
      && r.value.bottomFade.0 == r.value.window.ylo && r.value.topFade.1 == r.value.window.yhi
      && r.value.labels == Labels(fs, show, city, country, p, t, countryLabel)
      && r.value.format == Lower(format) && r.value.dpi == ExportDpi(format, dpi)
  {
    var colors := EdgeColors(g.edges, t);
    var widths := EdgeWidths(g.edges);
    var crop := CropLimits(g.nodes, figWidth, figHeight);
    if crop.None? {
      return None;
    }
    var w := crop.value;
    r := Some(Poster(
      t.bg,
      Layer(Polygons(water), t.water, 1),
      Layer(Polygons(parks), t.parks, 2),
      colors, widths, w,
      FadeBand("bottom", w.ylo, w.yhi), FadeBand("top", w.ylo, w.yhi), t.gradientColor,
      Labels(fs, show, city, country, p, t, countryLabel),
      Lower(format), ExportDpi(format, dpi)));
  }
}
