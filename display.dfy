/** The decisions the display manager makes before any pixel is drawn:
    which background, which fonts, which texts and which colours end up in
    a frame, and when showing a plant counts as a success.  Drawing, image
    decoding and font rasterising are not modelled; a file system is given
    as the set of paths that exist and the set of paths that load. */
module Display {
  import opened Wrappers
  import opened Text

  datatype Rgb = Rgb(red: int, green: int, blue: int)

  datatype Position = Position(x: int, y: int)

  /** Colours fixed in the display manager. */
  const StaticDefault := Rgb(100, 200, 255)
  const LowDefault := Rgb(255, 50, 50)
  const NormalDefault := Rgb(50, 255, 100)
  const HighDefault := Rgb(100, 150, 255)
  const AlertRed := Rgb(255, 0, 0)
  const Black := Rgb(0, 0, 0)

  /** One text section of the layout configuration (`name_font`,
      `humidity_font`, `datetime.time`, `datetime.date`); `None` is an
      absent key. */
  datatype TextConfig = TextConfig(
    size: Option<int>,
    color: Option<Rgb>,
    position: Option<Position>,
    fontPath: Option<string>,
    strokeWidth: Option<int>,
    strokeColor: Option<Rgb>)

  /** The `colors` entry of the humidity section. */
  datatype Palette = Palette(low: Option<Rgb>, normal: Option<Rgb>, high: Option<Rgb>)

  /** The humidity section: a text section plus the dynamic-colour switch
      (absent reads as off) and the three-level palette. */
  datatype HumidityConfig = HumidityConfig(text: TextConfig, dynamicColor: bool, colors: Palette)

  /** The optional `datetime` section; an absent `time` or `date` entry is a
      TextConfig whose keys are all absent. */
  datatype DateTimeConfig = DateTimeConfig(enabled: bool, time: TextConfig, date: TextConfig)

  /** The fixed part of a display manager: the side of the square display
      and the directory holding one background image per plant name. */
  datatype DisplayManager = DisplayManager(displaySize: int, imagesDir: string)

  /** Which paths exist and which of the existing ones load as an image or
      a font. */
  datatype FileSystem = FileSystem(existing: set<string>, loadable: set<string>) {
    predicate Usable(path: string) {
      path in existing && path in loadable
    }
  }

  // ---------------------------------------------------------------------
  // Humidity colour

  datatype Level = Low | Normal | High

  function Rank(l: Level): nat {
    match l
    case Low => 0
    case Normal => 1
    case High => 2
  }

  /** The level `_get_humidity_color` picks: below the minimum is low,
      above the maximum is high, the closed range between is normal.  The
      low test comes first, so it wins when min > max. */
  function HumidityLevel(humidity: int, min: int, max: int): (l: Level)
    ensures l == Low <==> humidity < min
    ensures l == High <==> min <= humidity && max < humidity
    ensures l == Normal <==> min <= humidity <= max
  {
    if humidity < min then Low
    else if humidity > max then High
    else Normal
  }

  /** The palette entry for a level, each with its own default. */
  function PaletteColor(p: Palette, l: Level): Rgb {
    match l
    case Low => p.low.GetOr(LowDefault)
    case Normal => p.normal.GetOr(NormalDefault)
    case High => p.high.GetOr(HighDefault)
  }

  /** `_get_humidity_color`: the configured colour (default 100,200,255)
      while dynamic colour is off, the palette entry of the level otherwise. */
  function HumidityColor(humidity: int, min: int, max: int, config: HumidityConfig): (c: Rgb)
    ensures config.dynamicColor ==>
      c == config.colors.low.GetOr(LowDefault) || c == config.colors.normal.GetOr(NormalDefault)
      || c == config.colors.high.GetOr(HighDefault)
  {
    if !config.dynamicColor then config.text.color.GetOr(StaticDefault)
    else PaletteColor(config.colors, HumidityLevel(humidity, min, max))
  }

  /** The four cases of the colour choice, each with its documented default. */
  lemma HumidityColorCases(humidity: int, min: int, max: int, config: HumidityConfig)
    ensures !config.dynamicColor ==>
      HumidityColor(humidity, min, max, config) == config.text.color.GetOr(StaticDefault)
    ensures config.dynamicColor && humidity < min ==>
      HumidityColor(humidity, min, max, config) == config.colors.low.GetOr(LowDefault)
    ensures config.dynamicColor && min <= humidity && max < humidity ==>
      HumidityColor(humidity, min, max, config) == config.colors.high.GetOr(HighDefault)
    ensures config.dynamicColor && min <= humidity <= max ==>
      HumidityColor(humidity, min, max, config) == config.colors.normal.GetOr(NormalDefault)
  {
  }

  /** With dynamic colour off the colour depends on nothing but the config. */
  lemma StaticColorIgnoresReading(h1: int, min1: int, max1: int, h2: int, min2: int, max2: int, config: HumidityConfig)
    requires !config.dynamicColor
    ensures HumidityColor(h1, min1, max1, config) == HumidityColor(h2, min2, max2, config)
  {
  }

  /** Both thresholds are inclusive and one step outside them changes level. */
  lemma ThresholdBoundaries(min: int, max: int)
    requires min <= max
    ensures HumidityLevel(min, min, max) == Normal && HumidityLevel(max, min, max) == Normal
    ensures HumidityLevel(min - 1, min, max) == Low && HumidityLevel(max + 1, min, max) == High
  {
  }

  /** A wetter reading never gets a lower level, even when min > max. */
  lemma LevelMonotone(h1: int, h2: int, min: int, max: int)
    requires h1 <= h2
    ensures Rank(HumidityLevel(h1, min, max)) <= Rank(HumidityLevel(h2, min, max))
  {
  }

  /** The three default palette colours differ, so under the default palette
      the colour shown tells the level apart. */
  lemma DefaultPaletteSeparatesLevels(h1: int, min1: int, max1: int, h2: int, min2: int, max2: int, config: HumidityConfig)
    requires config.dynamicColor && config.colors == Palette(None, None, None)
    ensures HumidityColor(h1, min1, max1, config) == HumidityColor(h2, min2, max2, config)
        <==> HumidityLevel(h1, min1, max1) == HumidityLevel(h2, min2, max2)
  {
  }

  // ---------------------------------------------------------------------
  // Status text

  datatype StatusText = StatusText(text: string, color: Rgb)

  /** The humidity layer's text and colour in `create_plant_image`: `ERR` in
      alert red when offline; otherwise the reading followed by `%`, coloured
      by HumidityColor when both thresholds are given and by the configured
      `color` otherwise, whose absence raises a KeyError. */
  function StatusLine(isOnline: bool, humidity: int, min: Option<int>, max: Option<int>, config: HumidityConfig)
    : (r: Result<StatusText, Exception>)
    ensures !isOnline ==> r == Success(StatusText("ERR", AlertRed))
    ensures isOnline ==> (r.Failure? <==> !(min.Some? && max.Some?) && config.text.color.None?)
    ensures r.Failure? ==> r.error == KeyError("color")
    ensures isOnline && r.Success? ==>
      var t := r.value.text;
      |t| >= 2 && t[|t| - 1] == '%' && ParseInt(t[..|t| - 1]) == Some(humidity)
    ensures isOnline && r.Success? ==> r.value.text == IntToDecimal(humidity) + "%"
    ensures isOnline && min.Some? && max.Some? ==>
      r.Success? && r.value.color == HumidityColor(humidity, min.value, max.value, config)
    ensures isOnline && !(min.Some? && max.Some?) && config.text.color.Some? ==>
      r.Success? && r.value.color == config.text.color.value
  {
    if isOnline then
      var text := IntToDecimal(humidity) + "%";
      assert text[..|text| - 1] == IntToDecimal(humidity);
      IntToDecimalRoundTrip(humidity);
      if min.Some? && max.Some? then
        Success(StatusText(text, HumidityColor(humidity, min.value, max.value, config)))
      else if config.text.color.Some? then
        Success(StatusText(text, config.text.color.value))
      else
        Failure(KeyError("color"))
    else
      Success(StatusText("ERR", AlertRed))
  }

  // ---------------------------------------------------------------------
  // Date

  type Day = d: int | 1 <= d <= 31 witness 1
  type Month = m: int | 1 <= m <= 12 witness 1

  /** The Russian month abbreviations, keyed by month number. */
  const MonthNamesRu: map<int, string> := map[
    1 := "янв", 2 := "фев", 3 := "мар", 4 := "апр", 5 := "май", 6 := "июн",
    7 := "июл", 8 := "авг", 9 := "сен", 10 := "окт", 11 := "ноя", 12 := "дек"]

  /** The table is total on the months, every entry has three letters, and
      no two months share one. */
  lemma MonthTable()
    ensures forall m: int :: m in MonthNamesRu <==> 1 <= m <= 12
    ensures forall m :: m in MonthNamesRu ==> |MonthNamesRu[m]| == 3
    ensures forall m1, m2 :: m1 in MonthNamesRu && m2 in MonthNamesRu && m1 != m2 ==>
      MonthNamesRu[m1] != MonthNamesRu[m2]
  {
  }

  /** `_format_date`: the day of the month, a space, the month's
      abbreviation.  The day can be read back from everything before the
      last four characters. */
  function FormatDate(day: Day, month: Month): (s: string)
    ensures |s| >= 5 && s[|s| - 4] == ' ' && s[|s| - 3..] == MonthNamesRu[month]
    ensures AllDigits(s[..|s| - 4]) && DigitsValue(s[..|s| - 4]) == day
    ensures s[0] != '0' && s[..|s| - 4] == NatToDecimal(day)
  {
    MonthTable();
    var s := NatToDecimal(day) + " " + MonthNamesRu[month];
    assert s[..|s| - 4] == NatToDecimal(day);
    NatToDecimalRoundTrip(day);
    s
  }

  /** Different dates give different strings. */
  lemma FormatDateInjective(d1: Day, m1: Month, d2: Day, m2: Month)
    requires FormatDate(d1, m1) == FormatDate(d2, m2)
    ensures d1 == d2 && m1 == m2
  {
    MonthTable();
    var s := FormatDate(d1, m1);
    assert MonthNamesRu[m1] == s[|s| - 3..] == MonthNamesRu[m2];
  }

  // ---------------------------------------------------------------------
  // Candidate chains

  /** The index of the first usable path of a candidate list, tried in
      order; None when no candidate is usable. */
  function FirstUsable(candidates: seq<string>, fs: FileSystem): (r: Option<nat>)
    ensures r.Some? ==> r.value < |candidates| && fs.Usable(candidates[r.value])
    ensures r.Some? ==> forall j :: 0 <= j < r.value ==> !fs.Usable(candidates[j])
    ensures r.None? ==> forall j :: 0 <= j < |candidates| ==> !fs.Usable(candidates[j])
  {
    if candidates == [] then None
    else if fs.Usable(candidates[0]) then Some(0)
    else
      match FirstUsable(candidates[1..], fs)
      case Some(i) => Some(i + 1)
      case None => None
  }

  /** The extensions tried for a plant's background, in order. */
  const ImageExtensions: seq<string> := [".png", ".jpg", ".jpeg", ".PNG", ".JPG", ".JPEG"]

  function ImagePath(dm: DisplayManager, plantName: string, ext: string): string {
    dm.imagesDir + "/" + plantName + ext
  }

  function BackgroundCandidates(dm: DisplayManager, plantName: string): (c: seq<string>)
    ensures |c| == |ImageExtensions|
    ensures forall i :: 0 <= i < |c| ==> c[i] == ImagePath(dm, plantName, ImageExtensions[i])
  {
    seq(|ImageExtensions|, i requires 0 <= i < |ImageExtensions| => ImagePath(dm, plantName, ImageExtensions[i]))
  }

  /** `_load_background`: the first image path, in extension order, that
      exists and loads; None when there is none. */
  method LoadBackground(dm: DisplayManager, plantName: string, fs: FileSystem) returns (path: Option<string>)
    ensures var first := FirstUsable(BackgroundCandidates(dm, plantName), fs);
      path == if first.Some? then Some(BackgroundCandidates(dm, plantName)[first.value]) else None
  {
    ghost var candidates := BackgroundCandidates(dm, plantName);
    for i := 0 to |ImageExtensions|
      invariant forall j :: 0 <= j < i ==> !fs.Usable(candidates[j])
    {
      var imagePath := ImagePath(dm, plantName, ImageExtensions[i]);
      if imagePath in fs.existing {
        if imagePath in fs.loadable {
          return Some(imagePath);
        }
      }
    }
    return None;
  }

  datatype Font = TrueType(path: string, size: int) | BuiltinDefault

  /** The system fonts tried after the custom one, in order. */
  const SystemFonts: seq<string> := [
    "/System/Library/Fonts/Helvetica.ttc",
    "/usr/share/fonts/truetype/dejavu/DejaVuSans.ttf",
    "C:\\Windows\\Fonts\\arial.ttf"]

  /** A custom font path is tried only when given and non-empty. */
  function FontCandidates(customPath: Option<string>): seq<string> {
    (if customPath.Some? && customPath.value != "" then [customPath.value] else []) + SystemFonts
  }

  /** The font `_get_font` ends with: the custom path if it is given, exists
      and loads; else the first usable system font; else the built-in
      default. */
  function FontChoice(size: int, customPath: Option<string>, fs: FileSystem): (f: Font)
    ensures f.TrueType? ==> f.size == size && f.path in FontCandidates(customPath) && fs.Usable(f.path)
    ensures f.BuiltinDefault? <==> forall p :: p in FontCandidates(customPath) ==> !fs.Usable(p)
    ensures customPath.Some? && customPath.value != "" && fs.Usable(customPath.value) ==>
      f == TrueType(customPath.value, size)
  {
    var candidates := FontCandidates(customPath);
    match FirstUsable(candidates, fs)
    case Some(i) => TrueType(candidates[i], size)
    case None => BuiltinDefault
  }

  /** When the custom font is not usable, the first usable system font wins. */
  lemma SystemFontOrder(size: int, customPath: Option<string>, fs: FileSystem, k: nat)
    requires !(customPath.Some? && customPath.value != "" && fs.Usable(customPath.value))
    requires k < |SystemFonts| && fs.Usable(SystemFonts[k])
    requires forall j :: 0 <= j < k ==> !fs.Usable(SystemFonts[j])
    ensures FontChoice(size, customPath, fs) == TrueType(SystemFonts[k], size)
  {
    var candidates := FontCandidates(customPath);
    var offset := |candidates| - |SystemFonts|;
    assert forall j :: 0 <= j < |SystemFonts| ==> candidates[offset + j] == SystemFonts[j];
    var first := FirstUsable(candidates, fs);
    assert fs.Usable(candidates[offset + k]);
    assert first.Some?;
    assert first.value == offset + k;
  }

  /** `_get_font`. */
  method GetFont(size: int, customPath: Option<string>, fs: FileSystem) returns (f: Font)
    ensures f == FontChoice(size, customPath, fs)
  {
    ghost var candidates := FontCandidates(customPath);
    ghost var offset := |candidates| - |SystemFonts|;
    if customPath.Some? && customPath.value != "" && customPath.value in fs.existing {
      if customPath.value in fs.loadable {
        assert FirstUsable(candidates, fs) == Some(0);
        return TrueType(customPath.value, size);
      }
    }
    assert offset == 1 ==> !fs.Usable(candidates[0]);
    for i := 0 to |SystemFonts|
      invariant forall j :: 0 <= j < offset + i ==> !fs.Usable(candidates[j])
    {
      if SystemFonts[i] in fs.existing {
        if SystemFonts[i] in fs.loadable {
          assert candidates[offset + i] == SystemFonts[i];
          return TrueType(SystemFonts[i], size);
        }
      }
      assert candidates[offset + i] == SystemFonts[i];
    }
    return BuiltinDefault;
  }

  // ---------------------------------------------------------------------
  // Frame composition

  datatype Canvas = Picture(path: string, side: int) | BlackCanvas(side: int)

  datatype TextLayer = TextLayer(
    position: Position,
    text: string,
    fill: Rgb,
    font: Font,
    strokeWidth: int,
    strokeColor: Rgb)

  /** A composed frame: the canvas and the text layers in drawing order. */
  datatype Frame = Frame(canvas: Canvas, layers: seq<TextLayer>)

  /** What the clock reads when a frame is composed: the `HH:MM` text and
      the day and month of the local date. */
  datatype Clock = Clock(timeText: string, day: Day, month: Month)

  /** The canvas `create_plant_image` starts from: the plant's image,
      resized to the display, when backgrounds are on and one loads;
      otherwise a black square of the display's size. */
  function CanvasChoice(dm: DisplayManager, plantName: string, backgroundEnabled: bool, fs: FileSystem): (c: Canvas)
    ensures c.side == dm.displaySize
    ensures c.Picture? ==> backgroundEnabled && c.path in BackgroundCandidates(dm, plantName) && fs.Usable(c.path)
    ensures c.Picture? ==> var cs := BackgroundCandidates(dm, plantName);
      exists i :: 0 <= i < |cs| && c.path == cs[i] && forall j :: 0 <= j < i ==> !fs.Usable(cs[j])
    ensures c.BlackCanvas? <==>
      !backgroundEnabled || forall p :: p in BackgroundCandidates(dm, plantName) ==> !fs.Usable(p)
  {
    var candidates := BackgroundCandidates(dm, plantName);
    var first := FirstUsable(candidates, fs);
    if backgroundEnabled && first.Some? then Picture(candidates[first.value], dm.displaySize)
    else BlackCanvas(dm.displaySize)
  }

  /** The key whose absence makes `create_plant_image` raise a KeyError, in
      the order the keys are read. */
  function MissingKey(nameConfig: TextConfig, humidityConfig: HumidityConfig, isOnline: bool, min: Option<int>, max: Option<int>)
    : (k: Option<string>)
    ensures k.None? <==>
      && nameConfig.size.Some? && nameConfig.color.Some? && nameConfig.position.Some?
      && humidityConfig.text.size.Some? && humidityConfig.text.position.Some?
      && (isOnline && !(min.Some? && max.Some?) ==> humidityConfig.text.color.Some?)
    ensures k.Some? ==> k.value == "size" || k.value == "color" || k.value == "position"
  {
    if nameConfig.size.None? then Some("size")
    else if nameConfig.color.None? then Some("color")
    else if nameConfig.position.None? then Some("position")
    else if humidityConfig.text.size.None? then Some("size")
    else if humidityConfig.text.position.None? then Some("position")
    else if isOnline && !(min.Some? && max.Some?) && humidityConfig.text.color.None? then Some("color")
    else None
  }

  predicate DateTimeShown(datetimeConfig: Option<DateTimeConfig>) {
    datetimeConfig.Some? && datetimeConfig.value.enabled
  }

  /** A layer of the date-time overlay, with that overlay's defaults. */
  function OverlayLayer(config: TextConfig, text: string, defaultSize: int, defaultColor: Rgb, defaultPosition: Position, fs: FileSystem)
    : TextLayer
  {
    TextLayer(
      config.position.GetOr(defaultPosition), text, config.color.GetOr(defaultColor),
      FontChoice(config.size.GetOr(defaultSize), config.fontPath, fs),
      config.strokeWidth.GetOr(0), config.strokeColor.GetOr(Black))
  }

  /** `create_plant_image`: the background, the name layer, the status
      layer and, when enabled, the time and date layers. */
  method CreatePlantImage(
    dm: DisplayManager, fs: FileSystem, clock: Clock,
    plantName: string, humidity: int, nameConfig: TextConfig, humidityConfig: HumidityConfig,
    backgroundEnabled: bool, min: Option<int>, max: Option<int>,
    datetimeConfig: Option<DateTimeConfig>, isOnline: bool)
    returns (r: Result<Frame, Exception>)
    ensures r.Failure? <==> MissingKey(nameConfig, humidityConfig, isOnline, min, max).Some?
    ensures r.Failure? ==> r.error == KeyError(MissingKey(nameConfig, humidityConfig, isOnline, min, max).value)
    ensures r.Success? ==>
      var frame := r.value;
      && frame.canvas == CanvasChoice(dm, plantName, backgroundEnabled, fs)
      && |frame.layers| == (if DateTimeShown(datetimeConfig) then 4 else 2)
      && frame.layers[0] == TextLayer(
           nameConfig.position.value, plantName, nameConfig.color.value,
           FontChoice(nameConfig.size.value, nameConfig.fontPath, fs),
           nameConfig.strokeWidth.GetOr(0), nameConfig.strokeColor.GetOr(Black))
      && StatusLine(isOnline, humidity, min, max, humidityConfig).Success?
      && frame.layers[1] == TextLayer(
           humidityConfig.text.position.value,
           StatusLine(isOnline, humidity, min, max, humidityConfig).value.text,
           StatusLine(isOnline, humidity, min, max, humidityConfig).value.color,
           FontChoice(humidityConfig.text.size.value, humidityConfig.text.fontPath, fs),
           humidityConfig.text.strokeWidth.GetOr(0), humidityConfig.text.strokeColor.GetOr(Black))
      && (DateTimeShown(datetimeConfig) ==>
           && frame.layers[2] == OverlayLayer(datetimeConfig.value.time, clock.timeText, 10, Rgb(200, 200, 200), Position(2, 16), fs)
           && frame.layers[3] == OverlayLayer(datetimeConfig.value.date, FormatDate(clock.day, clock.month), 8, Rgb(150, 150, 150), Position(2, 28), fs))
  {
    var canvas := BlackCanvas(dm.displaySize);
    if backgroundEnabled {
      var image := LoadBackground(dm, plantName, fs);
      if image.Some? {
        canvas := Picture(image.value, dm.displaySize);
      }
    }

    if nameConfig.size.None? {
      return Failure(KeyError("size"));
    }
    var nameFont := GetFont(nameConfig.size.value, nameConfig.fontPath, fs);
    if nameConfig.color.None? {
      return Failure(KeyError("color"));
    }
    if nameConfig.position.None? {
      return Failure(KeyError("position"));
    }
    var nameLayer := TextLayer(
      nameConfig.position.value, plantName, nameConfig.color.value, nameFont,
      nameConfig.strokeWidth.GetOr(0), nameConfig.strokeColor.GetOr(Black));

    if humidityConfig.text.size.None? {
      return Failure(KeyError("size"));
    }
    var humidityFont := GetFont(humidityConfig.text.size.value, humidityConfig.text.fontPath, fs);
    if humidityConfig.text.position.None? {
      return Failure(KeyError("position"));
    }
    var status := StatusLine(isOnline, humidity, min, max, humidityConfig);
    if status.Failure? {
      return Failure(status.error);
    }
    var statusLayer := TextLayer(
      humidityConfig.text.position.value, status.value.text, status.value.color, humidityFont,
      humidityConfig.text.strokeWidth.GetOr(0), humidityConfig.text.strokeColor.GetOr(Black));

    var layers := [nameLayer, statusLayer];
    if DateTimeShown(datetimeConfig) {
      var timeConfig := datetimeConfig.value.time;
      var timeFont := GetFont(timeConfig.size.GetOr(10), timeConfig.fontPath, fs);
      var timeLayer := TextLayer(
        timeConfig.position.GetOr(Position(2, 16)), clock.timeText, timeConfig.color.GetOr(Rgb(200, 200, 200)),
        timeFont, timeConfig.strokeWidth.GetOr(0), timeConfig.strokeColor.GetOr(Black));
      var dateConfig := datetimeConfig.value.date;
      var dateFont := GetFont(dateConfig.size.GetOr(8), dateConfig.fontPath, fs);
      var dateLayer := TextLayer(
        dateConfig.position.GetOr(Position(2, 28)), FormatDate(clock.day, clock.month),
        dateConfig.color.GetOr(Rgb(150, 150, 150)),
        dateFont, dateConfig.strokeWidth.GetOr(0), dateConfig.strokeColor.GetOr(Black));
      layers := layers + [timeLayer, dateLayer];
    }
    return Success(Frame(canvas, layers));
  }

  /** An offline plant's frame always says `ERR` in alert red, whatever the
      reading, the thresholds and the colour configuration. */
  lemma OfflineShowsErr(humidity: int, min: Option<int>, max: Option<int>, config: HumidityConfig)
    ensures StatusLine(false, humidity, min, max, config) == Success(StatusText("ERR", AlertRed))
  {
  }

  /** `display_plant`: true exactly when the frame is composed and both
      device calls (upload, then push) complete; every failure is caught
      and reported as false. */
  method DisplayPlant(
    dm: DisplayManager, fs: FileSystem, clock: Clock,
    plantName: string, humidity: int, nameConfig: TextConfig, humidityConfig: HumidityConfig,
    backgroundEnabled: bool, min: Option<int>, max: Option<int>,
    datetimeConfig: Option<DateTimeConfig>, isOnline: bool,
    drawOk: bool, pushOk: bool)
    returns (success: bool)
    ensures success <==> MissingKey(nameConfig, humidityConfig, isOnline, min, max).None? && drawOk && pushOk
  {
    var frame := CreatePlantImage(
      dm, fs, clock, plantName, humidity, nameConfig, humidityConfig,
      backgroundEnabled, min, max, datetimeConfig, isOnline);
    if frame.Failure? {
      return false;
    }
    if !drawOk {
      return false;
    }
    if !pushOk {
      return false;
    }
    return true;
  }
}
