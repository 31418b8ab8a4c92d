/**
 * The chart helpers of assets/js/visualization.js: the colour palette, the
 * x-axis label shortener, the data handed to each chart, and the canvas each
 * source chart draws into. Chart.js, the DOM and the download of the summary
 * are not modelled; a canvas lookup is a predicate on the element id.
 */
module Visualization {
  import opened Wrappers
  import opened Text
  import opened Counters

  // ---------------------------------------------------------------------------
  // Colours

  /** The fixed palette, in order. */
  const BASE_COLORS: seq<string> := [
    "#3498db", "#2980b9", "#1abc9c", "#16a085", "#2ecc71",
    "#27ae60", "#f1c40f", "#f39c12", "#e67e22", "#d35400",
    "#e74c3c", "#c0392b", "#9b59b6", "#8e44ad", "#34495e"
  ]

  predicate IsLowerHex(c: char) {
    '0' <= c <= '9' || 'a' <= c <= 'f'
  }

  /** `#` followed by six lower-case hexadecimal digits. */
  predicate IsHexColor(s: string) {
    |s| == 7 && s[0] == '#'
    && IsLowerHex(s[1]) && IsLowerHex(s[2]) && IsLowerHex(s[3])
    && IsLowerHex(s[4]) && IsLowerHex(s[5]) && IsLowerHex(s[6])
  }

  /** A non-empty list of hex colours. */
  predicate HexPalette(base: seq<string>) {
    |base| > 0 && forall j | 0 <= j < |base| :: IsHexColor(base[j])
  }

  /** The fixed palette has 15 colours, each `#` and six lower-case hex digits. */
  lemma BaseColorsWellFormed()
    ensures |BASE_COLORS| == 15 && HexPalette(BASE_COLORS)
  {
  }

  /** A hex digit as `toString(16)` writes it is lower-case and reads back as its value. */
  lemma HexDigitRoundTrip(d: nat)
    requires d < 16
    ensures IsLowerHex(DigitChar(d)) && DigitValue(DigitChar(d), 16) == d
  {
    DigitRoundTrip(d, 16);
  }

  /** A channel below 256 as two lower-case hex digits, high digit first. */
  function Hex2(n: nat): string
    requires n < 256
  {
    [DigitChar(n / 16), DigitChar(n % 16)]
  }

  /** `Hex2` is what `n.toString(16).padStart(2, '0')` writes. */
  lemma Hex2IsPadded(n: nat)
    requires n < 256
    ensures PadStart(ToBase(n, 16), 2, '0') == Hex2(n)
  {
    if n < 16 {
      assert ToBase(n, 16) == [DigitChar(n)];
    } else {
      assert ToBase(n / 16, 16) == [DigitChar(n / 16)];
    }
  }

  /** The two hex digits of a colour starting at `at` are digits in base 16, and read as a number below 256. */
  lemma ChannelIsParsed(color: string, at: nat)
    requires IsHexColor(color) && 1 <= at <= 5
    ensures AllDigits(color[at..at + 2], 16)
    ensures ParseBase(color[at..at + 2], 16) == DigitValue(color[at], 16) * 16 + DigitValue(color[at + 1], 16)
  {
    var s := color[at..at + 2];
    assert s[..1] == [color[at]] && s[..1][..0] == [] && s[1] == color[at + 1];
    assert ParseBase(s[..1], 16) == DigitValue(color[at], 16);
  }

  /** `parseInt(color.slice(at, at + 2), 16)`. */
  function Channel(color: string, at: nat): (v: nat)
    requires IsHexColor(color) && 1 <= at <= 5
    ensures v < 256
  {
    ChannelIsParsed(color, at);
    ParseBase(color[at..at + 2], 16)
  }

  /** `parseInt(color.slice(1, 3), 16)`: the red channel. */
  function Red(color: string): nat
    requires IsHexColor(color)
  {
    Channel(color, 1)
  }

  /** `parseInt(color.slice(3, 5), 16)`: the green channel. */
  function Green(color: string): nat
    requires IsHexColor(color)
  {
    Channel(color, 3)
  }

  /** `parseInt(color.slice(5, 7), 16)`: the blue channel. */
  function Blue(color: string): nat
    requires IsHexColor(color)
  {
    Channel(color, 5)
  }

  /** `#` and the three channels, each written with `Hex2`. */
  function Rgb(r: nat, g: nat, b: nat): string
    requires r < 256 && g < 256 && b < 256
  {
    "#" + Hex2(r) + Hex2(g) + Hex2(b)
  }

  /** Channels below 256 written as a colour give a hex colour that reads back as those channels. */
  lemma RgbRoundTrip(r: nat, g: nat, b: nat)
    requires r < 256 && g < 256 && b < 256
    ensures IsHexColor(Rgb(r, g, b))
    ensures Red(Rgb(r, g, b)) == r && Green(Rgb(r, g, b)) == g && Blue(Rgb(r, g, b)) == b
  {
    var c := Rgb(r, g, b);
    assert c[1] == DigitChar(r / 16) && c[2] == DigitChar(r % 16);
    assert c[3] == DigitChar(g / 16) && c[4] == DigitChar(g % 16);
    assert c[5] == DigitChar(b / 16) && c[6] == DigitChar(b % 16);
    HexDigitRoundTrip(r / 16);
    HexDigitRoundTrip(r % 16);
    HexDigitRoundTrip(g / 16);
    HexDigitRoundTrip(g % 16);
    HexDigitRoundTrip(b / 16);
    HexDigitRoundTrip(b % 16);
    ChannelIsParsed(c, 1);
    ChannelIsParsed(c, 3);
    ChannelIsParsed(c, 5);
  }

  /** A lower-case hex digit is what `toString(16)` writes for the value it reads as. */
  lemma HexCharRoundTrip(ch: char)
    requires IsLowerHex(ch)
    ensures DigitValue(ch, 16) < 16 && DigitChar(DigitValue(ch, 16)) == ch
  {
  }

  /** The two digits of a channel, read and written back, are the same two digits. */
  lemma ChannelRoundTrip(color: string, at: nat)
    requires IsHexColor(color) && 1 <= at <= 5
    ensures Hex2(Channel(color, at)) == color[at..at + 2]
  {
    ChannelIsParsed(color, at);
    var hi, lo := DigitValue(color[at], 16), DigitValue(color[at + 1], 16);
    HexCharRoundTrip(color[at]);
    HexCharRoundTrip(color[at + 1]);
    assert Channel(color, at) / 16 == hi && Channel(color, at) % 16 == lo;
  }

  /** A hex colour, read channel by channel and written back, is the same text. */
  lemma ColorRoundTrip(c: string)
    requires IsHexColor(c)
    ensures Rgb(Red(c), Green(c), Blue(c)) == c
  {
    ChannelRoundTrip(c, 1);
    ChannelRoundTrip(c, 3);
    ChannelRoundTrip(c, 5);
    assert c == c[..1] + c[1..3] + c[3..5] + c[5..7];
  }

  /** The colour derived from `base` at step `i`: each channel shifted by 15, 25 or 35 per step, wrapped with `% 255`. */
  function Derive(base: string, i: nat): string
    requires IsHexColor(base)
  {
    Rgb((Red(base) + 15 * i) % 255, (Green(base) + 25 * i) % 255, (Blue(base) + 35 * i) % 255)
  }

  /** `Derive` written with the base's channels already read. */
  lemma DeriveFromChannels(base: string, i: nat, r: nat, g: nat, b: nat)
    requires IsHexColor(base) && r == Red(base) && g == Green(base) && b == Blue(base)
    ensures Derive(base, i) == Rgb((r + 15 * i) % 255, (g + 25 * i) % 255, (b + 35 * i) % 255)
  {
    var nr, ng, nb := (Red(base) + 15 * i) % 255, (Green(base) + 25 * i) % 255, (Blue(base) + 35 * i) % 255;
    assert nr == (r + 15 * i) % 255 && ng == (g + 25 * i) % 255 && nb == (b + 35 * i) % 255;
    assert Derive(base, i) == Rgb(nr, ng, nb);
  }

  /** A derived colour is a hex colour whose channels read back as the base's, shifted and wrapped. */
  lemma DeriveChannels(base: string, i: nat)
    requires IsHexColor(base)
    ensures IsHexColor(Derive(base, i))
    ensures Red(Derive(base, i)) == (Red(base) + 15 * i) % 255
    ensures Green(Derive(base, i)) == (Green(base) + 25 * i) % 255
    ensures Blue(Derive(base, i)) == (Blue(base) + 35 * i) % 255
  {
    RgbRoundTrip((Red(base) + 15 * i) % 255, (Green(base) + 25 * i) % 255, (Blue(base) + 35 * i) % 255);
  }

  /** Step 0 shifts nothing: the derived colour is the base colour itself, unless a channel is `ff`. */
  lemma DeriveZero(base: string)
    requires IsHexColor(base) && Red(base) < 255 && Green(base) < 255 && Blue(base) < 255
    ensures Derive(base, 0) == base
  {
    var i: nat := 0;
    assert (Red(base) + 15 * i) % 255 == Red(base);
    assert (Green(base) + 25 * i) % 255 == Green(base);
    assert (Blue(base) + 35 * i) % 255 == Blue(base);
    ColorRoundTrip(base);
  }

  /** The `i`-th extra colour grown from `base`: derived from its colour `i % |base|`. */
  function ExtraColor(base: seq<string>, i: nat): string
    requires HexPalette(base)
  {
    Derive(base[i % |base|], i)
  }

  /** The first `n` extra colours grown from `base`, in order. */
  function Extras(base: seq<string>, n: nat): (extras: seq<string>)
    requires HexPalette(base)
    ensures |extras| == n
  {
    seq(n, k requires 0 <= k < n => ExtraColor(base, k))
  }

  /** One more extra colour is pushed at the end. */
  lemma ExtrasStep(base: seq<string>, n: nat)
    requires HexPalette(base)
    ensures Extras(base, n + 1) == Extras(base, n) + [ExtraColor(base, n)]
  {
  }

  /** The palette of `count` colours grown from `base`. */
  function PaletteOf(base: seq<string>, count: nat): seq<string>
    requires HexPalette(base)
  {
    if count <= |base| then base[..count]
    else base + Extras(base, count - |base|)
  }

  /** What `generateColorPalette(count)` returns: the palette grown from the fixed one. */
  function Palette(count: nat): seq<string> {
    BaseColorsWellFormed();
    PaletteOf(BASE_COLORS, count)
  }

  /** `generateColorPalette(count)`: the fixed palette, grown one derived colour at a time. */
  method GenerateColorPalette(count: nat) returns (colors: seq<string>)
    ensures colors == Palette(count)
  {
    BaseColorsWellFormed();
    colors := GrowPalette(BASE_COLORS, count);
  }

  /**
   * The body of `generateColorPalette` over its list `baseColors`: a prefix
   * when that is enough, otherwise the whole list and then one derived
   * colour per missing one.
   */
  method GrowPalette(baseColors: seq<string>, count: nat) returns (colors: seq<string>)
    requires HexPalette(baseColors)
    ensures colors == PaletteOf(baseColors, count)
  {
    if count <= |baseColors| {
      return baseColors[..count];
    }
    var neededExtraColors := count - |baseColors|;
    var extras := [];
    var i := 0;
    while i < neededExtraColors
      invariant 0 <= i <= neededExtraColors
      invariant extras == Extras(baseColors, i)
    {
      extras := PushExtra(baseColors, extras, i);
      i := i + 1;
    }
    colors := baseColors + extras;
  }

  /** One turn of the palette loop: push the colour derived from base colour `i % |baseColors|`. */
  method PushExtra(baseColors: seq<string>, extras: seq<string>, i: nat) returns (extras': seq<string>)
    requires HexPalette(baseColors) && extras == Extras(baseColors, i)
    ensures extras' == Extras(baseColors, i + 1)
  {
    var baseColor := baseColors[i % |baseColors|];
    var extra := DeriveColor(baseColor, i);
    extras' := extras + [extra];
    ExtrasStep(baseColors, i);
  }

  /** Deriving one colour: parse the base colour, shift each channel, format it back. */
  method DeriveColor(baseColor: string, i: nat) returns (color: string)
    requires IsHexColor(baseColor)
    ensures color == Derive(baseColor, i)
  {
    var r := ParseHex(baseColor, 1);
    var g := ParseHex(baseColor, 3);
    var b := ParseHex(baseColor, 5);
    var newR := (r + 15 * i) % 255;
    var newG := (g + 25 * i) % 255;
    var newB := (b + 35 * i) % 255;
    var hexR := FormatHex(newR);
    var hexG := FormatHex(newG);
    var hexB := FormatHex(newB);
    color := "#" + hexR + hexG + hexB;
    DeriveFromChannels(baseColor, i, r, g, b);
  }

  /** `parseInt(color.slice(at, at + 2), 16)`. */
  method ParseHex(color: string, at: nat) returns (v: nat)
    requires IsHexColor(color) && 1 <= at <= 5
    ensures v == Channel(color, at)
  {
    ChannelIsParsed(color, at);
    v := ParseBase(color[at..at + 2], 16);
  }

  /** `n.toString(16).padStart(2, '0')`. */
  method FormatHex(n: nat) returns (hex: string)
    requires n < 256
    ensures hex == Hex2(n)
  {
    Hex2IsPadded(n);
    hex := PadStart(ToBase(n, 16), 2, '0');
  }

  /**
   * A palette has exactly `count` colours; up to `|base|` of them are the
   * first ones of `base`, and beyond that `base` comes first, unchanged.
   */
  lemma PaletteLength(base: seq<string>, count: nat)
    requires HexPalette(base)
    ensures |PaletteOf(base, count)| == count
    ensures count <= |base| ==> PaletteOf(base, count) == base[..count]
    ensures count > |base| ==> PaletteOf(base, count)[..|base|] == base
    ensures count > |base| ==> PaletteOf(base, count)[|base|..] == Extras(base, count - |base|)
  {
  }

  /** Every extra colour is `#` and six lower-case hex digits. */
  lemma ExtrasWellFormed(base: seq<string>, n: nat, k: nat)
    requires HexPalette(base) && k < n
    ensures IsHexColor(Extras(base, n)[k])
  {
    DeriveChannels(base[k % |base|], k);
  }

  /**
   * Colour `j` of a palette is base colour `j` while `j < |base|`, and extra
   * colour `j - |base|` after that.
   */
  lemma PaletteColors(base: seq<string>, count: nat, j: nat)
    requires HexPalette(base) && j < count
    ensures j < |base| ==> PaletteOf(base, count)[j] == base[j]
    ensures j >= |base| ==> PaletteOf(base, count)[j] == Extras(base, count - |base|)[j - |base|]
  {
  }

  /** Every colour of a palette is `#` and six lower-case hex digits. */
  lemma PaletteWellFormed(base: seq<string>, count: nat, j: nat)
    requires HexPalette(base) && j < count
    ensures IsHexColor(PaletteOf(base, count)[j])
  {
    PaletteColors(base, count, j);
    if j >= |base| {
      ExtrasWellFormed(base, count - |base|, j - |base|);
    }
  }

  /**
   * The first grown colour repeats base colour 0: extra colour 0 is derived
   * from base colour 0 with no shift. The fixed palette's first colour has no
   * `ff` channel, so `generateColorPalette(16)` lists `#3498db` twice.
   */
  lemma FirstExtraRepeatsFirstBase(base: seq<string>, count: nat)
    requires HexPalette(base) && |base| < count
    requires Red(base[0]) < 255 && Green(base[0]) < 255 && Blue(base[0]) < 255
    ensures PaletteOf(base, count)[|base|] == PaletteOf(base, count)[0]
  {
    PaletteColors(base, count, |base|);
    PaletteColors(base, count, 0);
    assert Extras(base, count - |base|)[0] == Derive(base[0], 0);
    DeriveZero(base[0]);
  }

  /** `#3498db`'s channels are 0x34, 0x98 and 0xdb. */
  lemma FirstBaseChannels()
    ensures IsHexColor(BASE_COLORS[0])
    ensures Red(BASE_COLORS[0]) == 0x34 && Green(BASE_COLORS[0]) == 0x98 && Blue(BASE_COLORS[0]) == 0xdb
  {
    var c := BASE_COLORS[0];
    ChannelIsParsed(c, 1);
    ChannelIsParsed(c, 3);
    ChannelIsParsed(c, 5);
  }

  /** With 16 or more colours, the fixed palette's first colour comes back as colour 15. */
  lemma PaletteRepeatsAt15(count: nat)
    requires 15 < count
    ensures Palette(count)[15] == Palette(count)[0] == "#3498db"
  {
    BaseColorsWellFormed();
    FirstBaseChannels();
    FirstExtraRepeatsFirstBase(BASE_COLORS, count);
    PaletteColors(BASE_COLORS, count, 0);
  }

  // ---------------------------------------------------------------------------
  // Axis labels

  /** The x-axis tick callback: labels longer than 15 become their first 12 characters and "...". */
  function ShortenLabel(name: string): (r: string)
    ensures |r| <= 15
    ensures r == name <==> |name| <= 15
    ensures |name| > 15 ==> |r| == 15 && StartsWith(r, name[..12]) && EndsWith(r, "...")
  {
    if |name| > 15 then name[..12] + "..." else name
  }

  /** Shortening a shortened name changes nothing. */
  lemma ShortenIdempotent(name: string)
    ensures ShortenLabel(ShortenLabel(name)) == ShortenLabel(name)
  {
  }

  /** Two labels shorten to the same text only when they agree on their first 12 characters. */
  lemma ShortenKeepsPrefix(a: string, b: string)
    requires |a| > 15 && |b| > 15
    ensures ShortenLabel(a) == ShortenLabel(b) <==> a[..12] == b[..12]
  {
    if ShortenLabel(a) == ShortenLabel(b) {
      assert ShortenLabel(a)[..12] == a[..12];
    }
  }

  // ---------------------------------------------------------------------------
  // Chart data

  /** What one chart is given: its labels, the counts, and one colour per bar or slice. */
  datatype ChartData = ChartData(labels: seq<string>, counts: seq<nat>, colors: seq<string>)

  const MAIN_CHART_SIZE: nat := 15
  const SOURCE_CHART_SIZE: nat := 8

  /** JavaScript's `entries.slice(0, n)`. */
  function Slice(entries: seq<Entry>, n: nat): (top: seq<Entry>)
    ensures |top| == if n < |entries| then n else |entries|
    ensures top == entries[..|top|]
  {
    if n < |entries| then entries[..n] else entries
  }

  /** The labels, counts and colours of the first `n` ranked entries. */
  function ChartOf(entries: seq<Entry>, n: nat): ChartData {
    var top := Slice(entries, n);
    ChartData(
      seq(|top|, i requires 0 <= i < |top| => top[i].text),
      seq(|top|, i requires 0 <= i < |top| => top[i].count),
      Palette(|top|))
  }

  /**
   * A chart shows the first `n` entries, its three arrays have one element
   * per entry, and a chart of at most 15 entries takes its colours from the
   * fixed palette in order.
   */
  lemma ChartShape(entries: seq<Entry>, n: nat)
    ensures var d := ChartOf(entries, n);
      |d.labels| == |d.counts| == |d.colors| == (if n < |entries| then n else |entries|)
      && (forall i | 0 <= i < |d.labels| :: d.labels[i] == entries[i].text && d.counts[i] == entries[i].count)
      && (n <= |BASE_COLORS| ==> d.colors == BASE_COLORS[..|d.labels|])
  {
    BaseColorsWellFormed();
    PaletteLength(BASE_COLORS, |Slice(entries, n)|);
  }

  /** The data of one chart, built with the palette method. */
  method BuildChart(entries: seq<Entry>, n: nat) returns (d: ChartData)
    ensures d == ChartOf(entries, n)
  {
    var top := Slice(entries, n);
    var labels := seq(|top|, i requires 0 <= i < |top| => top[i].text);
    var counts := seq(|top|, i requires 0 <= i < |top| => top[i].count);
    var colors := GenerateColorPalette(|top|);
    d := ChartData(labels, counts, colors);
  }

  /** `renderEntitiesChart`: nothing without the `entitiesChart` canvas, else the top 15 entities. */
  method RenderEntitiesChart(topEntities: seq<Entry>, hasCanvas: bool) returns (chart: Option<ChartData>)
    ensures !hasCanvas <==> chart.None?
    ensures chart.Some? ==> chart.value == ChartOf(topEntities, MAIN_CHART_SIZE)
  {
    if !hasCanvas {
      return None;
    }
    var d := BuildChart(topEntities, MAIN_CHART_SIZE);
    chart := Some(d);
  }

  // ---------------------------------------------------------------------------
  // Source charts

  /** The canvas of the source at 0-based position `index`. */
  function CanvasId(index: nat): string {
    "sourceChart" + Dec(index + 1)
  }

  /** Different positions draw into different canvases. */
  lemma CanvasIdInjective(i: nat, j: nat)
    requires CanvasId(i) == CanvasId(j)
    ensures i == j
  {
    var p := "sourceChart";
    assert CanvasId(i)[|p|..] == Dec(i + 1);
    assert CanvasId(j)[|p|..] == Dec(j + 1);
    DecInjective(i + 1, j + 1);
  }

  /** One drawn source chart: the canvas, the source and its data. */
  datatype SourceChart = SourceChart(canvasId: string, source: string, data: ChartData)

  /** The chart of the source at `index`, when drawn. */
  function SourceChartAt(bySource: seq<(string, seq<Entry>)>, index: nat): SourceChart
    requires index < |bySource|
  {
    SourceChart(CanvasId(index), bySource[index].0, ChartOf(bySource[index].1, SOURCE_CHART_SIZE))
  }

  /** The charts drawn, in key order, skipping every source whose canvas is missing. */
  function Drawn(bySource: seq<(string, seq<Entry>)>, hasCanvas: string -> bool): (charts: seq<SourceChart>)
    ensures |charts| <= |bySource|
  {
    if bySource == [] then []
    else
      var n := |bySource| - 1;
      Drawn(bySource[..n], hasCanvas) + (if hasCanvas(CanvasId(n)) then [SourceChartAt(bySource, n)] else [])
  }

  /** Every drawn chart is the chart of some source whose canvas exists. */
  lemma {:induction false} DrawnAreCharts(bySource: seq<(string, seq<Entry>)>, hasCanvas: string -> bool, k: nat)
    requires k < |Drawn(bySource, hasCanvas)|
    ensures exists index | 0 <= index < |bySource| ::
      hasCanvas(CanvasId(index)) && Drawn(bySource, hasCanvas)[k] == SourceChartAt(bySource, index)
  {
    var n := |bySource| - 1;
    var init := bySource[..n];
    if k < |Drawn(init, hasCanvas)| {
      DrawnAreCharts(init, hasCanvas, k);
      var index :| 0 <= index < |init| && hasCanvas(CanvasId(index)) && Drawn(init, hasCanvas)[k] == SourceChartAt(init, index);
      assert SourceChartAt(init, index) == SourceChartAt(bySource, index);
    } else {
      assert Drawn(bySource, hasCanvas)[k] == SourceChartAt(bySource, n);
    }
  }

  /** Every source whose canvas exists is drawn. */
  lemma {:induction false} ChartsDrawn(bySource: seq<(string, seq<Entry>)>, hasCanvas: string -> bool, index: nat)
    requires index < |bySource| && hasCanvas(CanvasId(index))
    ensures SourceChartAt(bySource, index) in Drawn(bySource, hasCanvas)
  {
    var n := |bySource| - 1;
    var init := bySource[..n];
    if index < n {
      ChartsDrawn(init, hasCanvas, index);
      assert SourceChartAt(init, index) == SourceChartAt(bySource, index);
    }
  }

  /**
   * A missing canvas skips exactly its own source: the source at `index` is
   * drawn, into canvas `sourceChart<index+1>`, iff that canvas exists.
   */
  lemma MissingCanvasSkipsOnlyItsSource(bySource: seq<(string, seq<Entry>)>, hasCanvas: string -> bool, index: nat)
    requires index < |bySource|
    ensures SourceChartAt(bySource, index) in Drawn(bySource, hasCanvas) <==> hasCanvas(CanvasId(index))
  {
    if hasCanvas(CanvasId(index)) {
      ChartsDrawn(bySource, hasCanvas, index);
    } else if SourceChartAt(bySource, index) in Drawn(bySource, hasCanvas) {
      var k :| 0 <= k < |Drawn(bySource, hasCanvas)| && Drawn(bySource, hasCanvas)[k] == SourceChartAt(bySource, index);
      DrawnAreCharts(bySource, hasCanvas, k);
    }
  }

  /** `renderSourceCharts`: one doughnut of the top 8 entities per source whose canvas exists, in key order. */
  method RenderSourceCharts(bySource: seq<(string, seq<Entry>)>, hasCanvas: string -> bool) returns (charts: seq<SourceChart>)
    ensures charts == Drawn(bySource, hasCanvas)
  {
    charts := [];
    var index := 0;
    while index < |bySource|
      invariant 0 <= index <= |bySource|
      invariant charts == Drawn(bySource[..index], hasCanvas)
    {
      assert bySource[..index + 1][..index] == bySource[..index];
      var source := bySource[index].0;
      var canvasId := CanvasId(index);
      if hasCanvas(canvasId) {
        var data := BuildChart(bySource[index].1, SOURCE_CHART_SIZE);
        charts := charts + [SourceChart(canvasId, source, data)];
      }
      index := index + 1;
    }
    assert bySource[..index] == bySource;
  }
}
