/**
 * The speech bubble (Baloon.java): where it sits in the host window, how big
 * it is, whether it is shown, and what painting it does, in order.
 *
 * The bubble reads its settings anew at every use; each operation here takes
 * the configuration snapshot it reads from. Java `int` arithmetic is modelled
 * exactly: sums, differences and products wrap around at 32 bits and `/ 2`
 * rounds toward zero.
 */
module Entities {
  import opened Wrappers
  import opened JavaLang
  import opened Settings

  const HIGH_QUALITY := "baloon.highQuality"
  const HIGH_QUALITY_TEXT := "baloon.highQualityText"
  const BALOON_Y_OFFSET := "baloon.yOffset"
  const BALOON_X_OFFSET := "baloon.xOffset"
  const BALOON_WIDTH := "baloon.width"
  const BALOON_HEIGHT := "baloon.height"
  const BALOON_FONT_SIZE := "baloon.fontSize"
  const BALOON_FONT := "baloon.font"
  const BALOON_BACKGROUND := "baloon.background"
  const BALOON_FOREGROUND := "baloon.foreground"

  /** `java.awt.Rectangle`: a location and a size. */
  datatype Rect = Rect(x: Int32, y: Int32, width: Int32, height: Int32)

  /** `java.awt.Dimension`. */
  datatype Dimension = Dimension(width: Int32, height: Int32)

  /** A plain font of the given family and point size. */
  datatype Font = Font(name: string, size: Int32)

  /** The four settings the bubble's placement is computed from. */
  datatype Geometry = Geometry(width: Int32, height: Int32, xOffset: Int32, yOffset: Int32)

  /** Everything the constructor reads from the settings. */
  datatype WidgetSettings = WidgetSettings(geometry: Geometry, foreground: Color, fontName: string, fontSize: Int32)

  const DEFAULT_GEOMETRY := Geometry(400, 100, 0, 300)

  // ---------------------------------------------------------------------------
  // Reading the settings

  /** The reads of `getDesiredSize`, in its order: width, x offset, y offset, height; the first failure escapes. */
  function ReadGeometry(p: Snapshot): (r: Result<Geometry, SettingsError>)
    ensures r.Ok? <==>
      GetInt(p, BALOON_WIDTH, 400).Ok? && GetInt(p, BALOON_X_OFFSET, 0).Ok? &&
      GetInt(p, BALOON_Y_OFFSET, 300).Ok? && GetInt(p, BALOON_HEIGHT, 100).Ok?
    ensures r.Ok? ==> r.value == Geometry(GetInt(p, BALOON_WIDTH, 400).value, GetInt(p, BALOON_HEIGHT, 100).value,
                                          GetInt(p, BALOON_X_OFFSET, 0).value, GetInt(p, BALOON_Y_OFFSET, 300).value)
    ensures GetInt(p, BALOON_WIDTH, 400).Err? ==> r == Err(GetInt(p, BALOON_WIDTH, 400).error)
    ensures GetInt(p, BALOON_WIDTH, 400).Ok? && GetInt(p, BALOON_X_OFFSET, 0).Err? ==>
      r == Err(GetInt(p, BALOON_X_OFFSET, 0).error)
    ensures GetInt(p, BALOON_WIDTH, 400).Ok? && GetInt(p, BALOON_X_OFFSET, 0).Ok? && GetInt(p, BALOON_Y_OFFSET, 300).Err? ==>
      r == Err(GetInt(p, BALOON_Y_OFFSET, 300).error)
    ensures (GetInt(p, BALOON_WIDTH, 400).Ok? && GetInt(p, BALOON_X_OFFSET, 0).Ok? && GetInt(p, BALOON_Y_OFFSET, 300).Ok? &&
             GetInt(p, BALOON_HEIGHT, 100).Err?) ==> r == Err(GetInt(p, BALOON_HEIGHT, 100).error)
  {
    match GetInt(p, BALOON_WIDTH, 400)
    case Err(e) => Err(e)
    case Ok(width) =>
      match GetInt(p, BALOON_X_OFFSET, 0)
      case Err(e) => Err(e)
      case Ok(xOffset) =>
        match GetInt(p, BALOON_Y_OFFSET, 300)
        case Err(e) => Err(e)
        case Ok(yOffset) =>
          match GetInt(p, BALOON_HEIGHT, 100)
          case Err(e) => Err(e)
          case Ok(height) => Ok(Geometry(width, height, xOffset, yOffset))
  }

  /**
   * The reads of the constructor, in its order: width and height (for the size),
   * x and y offsets (for the location), foreground, font family, font size.
   */
  function ReadWidgetSettings(p: Snapshot): (r: Result<WidgetSettings, SettingsError>)
    ensures r.Ok? <==> ReadGeometry(p).Ok? && GetColor(p, BALOON_FOREGROUND, Some(WHITE)).Ok? &&
                       GetInt(p, BALOON_FONT_SIZE, 15).Ok?
    ensures r.Ok? ==> ReadGeometry(p) == Ok(r.value.geometry)
    ensures r.Ok? ==> GetColor(p, BALOON_FOREGROUND, Some(WHITE)) == Ok(Some(r.value.foreground))
    ensures r.Ok? ==> GetString(p, BALOON_FONT, Some("Arial")) == Ok(Some(r.value.fontName))
    ensures r.Ok? ==> GetInt(p, BALOON_FONT_SIZE, 15) == Ok(r.value.fontSize)
    ensures BALOON_FOREGROUND !in p && BALOON_FONT !in p && BALOON_FONT_SIZE !in p && r.Ok? ==>
      r.value.foreground == WHITE && r.value.fontName == "Arial" && r.value.fontSize == 15
    ensures GetInt(p, BALOON_WIDTH, 400).Err? ==> r == Err(GetInt(p, BALOON_WIDTH, 400).error)
    ensures GetInt(p, BALOON_WIDTH, 400).Ok? && GetInt(p, BALOON_HEIGHT, 100).Err? ==>
      r == Err(GetInt(p, BALOON_HEIGHT, 100).error)
    ensures GetInt(p, BALOON_WIDTH, 400).Ok? && GetInt(p, BALOON_HEIGHT, 100).Ok? && GetInt(p, BALOON_X_OFFSET, 0).Err? ==>
      r == Err(GetInt(p, BALOON_X_OFFSET, 0).error)
    ensures (GetInt(p, BALOON_WIDTH, 400).Ok? && GetInt(p, BALOON_HEIGHT, 100).Ok? && GetInt(p, BALOON_X_OFFSET, 0).Ok? &&
             GetInt(p, BALOON_Y_OFFSET, 300).Err?) ==> r == Err(GetInt(p, BALOON_Y_OFFSET, 300).error)
    ensures ReadGeometry(p).Ok? && GetColor(p, BALOON_FOREGROUND, Some(WHITE)).Err? ==>
      r == Err(GetColor(p, BALOON_FOREGROUND, Some(WHITE)).error)
    ensures ReadGeometry(p).Ok? && GetColor(p, BALOON_FOREGROUND, Some(WHITE)).Ok? && GetInt(p, BALOON_FONT_SIZE, 15).Err? ==>
      r == Err(GetInt(p, BALOON_FONT_SIZE, 15).error)
  {
    match GetInt(p, BALOON_WIDTH, 400)
    case Err(e) => Err(e)
    case Ok(width) =>
      match GetInt(p, BALOON_HEIGHT, 100)
      case Err(e) => Err(e)
      case Ok(height) =>
        match GetInt(p, BALOON_X_OFFSET, 0)
        case Err(e) => Err(e)
        case Ok(xOffset) =>
          match GetInt(p, BALOON_Y_OFFSET, 300)
          case Err(e) => Err(e)
          case Ok(yOffset) =>
            match GetColor(p, BALOON_FOREGROUND, Some(WHITE))
            case Err(e) => Err(e)
            case Ok(foreground) =>
              match GetString(p, BALOON_FONT, Some("Arial"))
              case Err(e) => Err(e)
              case Ok(fontName) =>
                match GetInt(p, BALOON_FONT_SIZE, 15)
                case Err(e) => Err(e)
                case Ok(fontSize) =>
                  Ok(WidgetSettings(Geometry(width, height, xOffset, yOffset), foreground.value, fontName.value, fontSize))
  }

  /** With none of the placement keys configured, the geometry is 400 wide, 100 high, offsets 0 and 300. */
  lemma DefaultGeometry(p: Snapshot)
    requires BALOON_WIDTH !in p && BALOON_HEIGHT !in p && BALOON_X_OFFSET !in p && BALOON_Y_OFFSET !in p
    ensures ReadGeometry(p) == Ok(DEFAULT_GEOMETRY)
  {
  }

  /** With none of the bubble's keys configured, every setting takes its default. */
  lemma DefaultSettings(p: Snapshot)
    requires BALOON_WIDTH !in p && BALOON_HEIGHT !in p && BALOON_X_OFFSET !in p && BALOON_Y_OFFSET !in p
    requires BALOON_FOREGROUND !in p && BALOON_FONT !in p && BALOON_FONT_SIZE !in p
    ensures ReadWidgetSettings(p) == Ok(WidgetSettings(DEFAULT_GEOMETRY, WHITE, "Arial", 15))
  {
  }

  // ---------------------------------------------------------------------------
  // Geometry

  /** The horizontal position both placements share: the window's middle, less half the width, plus the x offset. */
  function PlacementX(g: Geometry, windowWidth: Int32): (x: Int32)
    ensures (x - (Half(windowWidth) - Half(g.width) + g.xOffset)) % 0x1_0000_0000 == 0
  {
    Wrap32(Wrap32(Half(windowWidth) - Half(g.width)) + g.xOffset)
  }

  /** The vertical position both placements share: the y offset above the window's bottom edge. */
  function PlacementY(g: Geometry, windowHeight: Int32): (y: Int32)
    ensures (y - (windowHeight - g.yOffset)) % 0x1_0000_0000 == 0
  {
    Wrap32(windowHeight - g.yOffset)
  }

  /** The rectangle `getDesiredSize` returns: three times the configured height, to leave room for more lines. */
  function DesiredBounds(g: Geometry, parentWidth: Int32, parentHeight: Int32): (r: Rect)
    ensures r.x == PlacementX(g, parentWidth) && r.y == PlacementY(g, parentHeight) && r.width == g.width
    ensures (r.height - 3 * g.height) % 0x1_0000_0000 == 0
  {
    Rect(PlacementX(g, parentWidth), PlacementY(g, parentHeight), g.width, Wrap32(g.height * 3))
  }

  /** The location and size the constructor gives the widget: the configured height, unscaled. */
  function InitialBounds(g: Geometry, windowWidth: Int32, windowHeight: Int32): (r: Rect)
    ensures r.x == PlacementX(g, windowWidth) && r.y == PlacementY(g, windowHeight)
    ensures r.width == g.width && r.height == g.height
  {
    Rect(PlacementX(g, windowWidth), PlacementY(g, windowHeight), g.width, g.height)
  }

  /** `getDesiredSize(parentWidth, parentHeight)`: the settings that fail to parse make it throw. */
  function DesiredSize(p: Snapshot, parentWidth: Int32, parentHeight: Int32): (r: Result<Rect, SettingsError>)
    ensures r.Ok? <==> ReadGeometry(p).Ok?
    ensures r.Err? ==> r.error == ReadGeometry(p).error
    ensures r.Ok? ==> r.value == DesiredBounds(ReadGeometry(p).value, parentWidth, parentHeight)
    ensures r.Ok? ==> r.value.width == ReadGeometry(p).value.width
  {
    match ReadGeometry(p)
    case Err(e) => Err(e)
    case Ok(g) => Ok(DesiredBounds(g, parentWidth, parentHeight))
  }

  /**
   * Without overflow the horizontal placement is the plain formula: nothing
   * clamps it to the window, so a large offset puts the bubble outside it.
   */
  lemma PlacementXFormula(g: Geometry, windowWidth: Int32)
    requires 0 <= windowWidth && 0 <= g.width
    requires -0x1000_0000 <= g.xOffset <= 0x1000_0000
    ensures PlacementX(g, windowWidth) == windowWidth / 2 - g.width / 2 + g.xOffset
  {
    var h := Half(windowWidth) - Half(g.width);
    assert h == windowWidth / 2 - g.width / 2;
    assert Wrap32(h) == h;
    assert INT_MIN <= h + g.xOffset <= INT_MAX;
  }

  /** Without overflow the bubble's top edge sits exactly the y offset above the window's height. */
  lemma PlacementYFormula(g: Geometry, windowHeight: Int32)
    requires 0 <= windowHeight <= 0x4000_0000
    requires -0x1000_0000 <= g.yOffset <= 0x1000_0000
    ensures PlacementY(g, windowHeight) + g.yOffset == windowHeight
  {
  }

  /** The bubble is centred on the window's middle shifted by the x offset, to within a pixel of rounding. */
  lemma PlacementCentred(g: Geometry, windowWidth: Int32)
    requires 0 <= windowWidth && 0 <= g.width
    requires -0x1000_0000 <= g.xOffset <= 0x1000_0000
    ensures var left := PlacementX(g, windowWidth) - g.xOffset;
      windowWidth - 1 <= 2 * left + g.width <= windowWidth + 1
  {
    PlacementXFormula(g, windowWidth);
  }

  /**
   * The desired rectangle and the initial one share location and width; the
   * desired height is the initial height times three (in `int` arithmetic,
   * and exactly so while that product fits).
   */
  lemma DesiredIsInitialWithTripleHeight(g: Geometry, windowWidth: Int32, windowHeight: Int32)
    ensures var d, i := DesiredBounds(g, windowWidth, windowHeight), InitialBounds(g, windowWidth, windowHeight);
      d.x == i.x && d.y == i.y && d.width == i.width && d.height == Wrap32(i.height * 3)
    ensures 0 <= g.height <= INT_MAX / 3 ==>
      DesiredBounds(g, windowWidth, windowHeight).height == 3 * InitialBounds(g, windowWidth, windowHeight).height
  {
  }

  /** With the default settings an 800x600 window gets the rectangle (200, 300, 400, 300). */
  lemma DesiredSizeWorkedExample(p: Snapshot)
    requires BALOON_WIDTH !in p && BALOON_HEIGHT !in p && BALOON_X_OFFSET !in p && BALOON_Y_OFFSET !in p
    ensures DesiredSize(p, 800, 600) == Ok(Rect(200, 300, 400, 300))
    ensures InitialBounds(ReadGeometry(p).value, 800, 600) == Rect(200, 300, 400, 100)
  {
    DefaultGeometry(p);
    PlacementXFormula(DEFAULT_GEOMETRY, 800);
  }

  /** Java's wrap-around: a height above a third of the `int` range makes the desired height negative. */
  lemma DesiredHeightOverflows(g: Geometry, windowWidth: Int32, windowHeight: Int32)
    requires g.height == 0x3000_0000
    ensures DesiredBounds(g, windowWidth, windowHeight).height == -0x7000_0000
  {
  }

  // ---------------------------------------------------------------------------
  // Painting

  /** `RoundRectangle2D`: a rectangle with rounded corners of the given arc. */
  datatype RoundRect = RoundRect(x: int, y: int, width: int, height: int, arcWidth: int, arcHeight: int)

  /** What `paint` does to the graphics context, in order. */
  datatype Event =
    | EnableHighQuality                              // Util.setHighQuality
    | FillBackground(shape: RoundRect, paint: Color) // setPaint, then fill
    | DrawText                                       // super.paint: the label's text

  /** The events of one `paint`, and the exception that cut it short, if any. */
  datatype PaintOutcome = PaintOutcome(trace: seq<Event>, failure: Option<SettingsError>)

  /** How many times the trace enables high quality. */
  function CountHighQuality(trace: seq<Event>): nat
  {
    if trace == [] then 0
    else CountHighQuality(trace[..|trace| - 1]) + (if trace[|trace| - 1] == EnableHighQuality then 1 else 0)
  }

  /** The colour `setPaint` is given: the background setting, black when absent; a bad colour is its error. */
  function BackgroundPaint(p: Snapshot): (r: Result<Color, SettingsError>)
    ensures r.Ok? <==> GetColor(p, BALOON_BACKGROUND, Some(BLACK)).Ok?
    ensures r.Ok? ==> GetColor(p, BALOON_BACKGROUND, Some(BLACK)) == Ok(Some(r.value))
    ensures r.Err? ==> r.error == GetColor(p, BALOON_BACKGROUND, Some(BLACK)).error
    ensures BALOON_BACKGROUND !in p ==> r == Ok(BLACK)
  {
    match GetColor(p, BALOON_BACKGROUND, Some(BLACK))
    case Err(e) => Err(e)
    case Ok(c) => Ok(c.value)
  }

  /**
   * The drawing steps of `paint` for given setting values: high quality before
   * the fill when `quality` is set, otherwise after it when `text` is set; then
   * the text. An error for the background colour ends the trace.
   */
  function PaintSteps(quality: bool, background: Result<Color, SettingsError>, text: bool, width: Int32, height: Int32)
    : (o: PaintOutcome)
    ensures CountHighQuality(o.trace) <= 1
    ensures o.failure.None? <==> background.Ok?
    ensures o.failure.None? ==> |o.trace| >= 2 && o.trace[|o.trace| - 1] == DrawText
    ensures o.failure.Some? ==> o.failure == Some(background.error) && o.trace == (if quality then [EnableHighQuality] else [])
    ensures background.Ok? ==>
      var fill := FillBackground(RoundRect(0, 0, width, height, 10, 10), background.value);
      (quality ==> o.trace == [EnableHighQuality, fill, DrawText]) &&
      (!quality && text ==> o.trace == [fill, EnableHighQuality, DrawText]) &&
      (!quality && !text ==> o.trace == [fill, DrawText])
  {
    match background
    case Err(e) => PaintOutcome(if quality then [EnableHighQuality] else [], Some(e))
    case Ok(c) =>
      var fill := FillBackground(RoundRect(0, 0, width, height, 10, 10), c);
      assert [EnableHighQuality, fill, DrawText][..2] == [EnableHighQuality, fill];
      assert [fill, EnableHighQuality, DrawText][..2] == [fill, EnableHighQuality];
      assert [EnableHighQuality, fill][..1] == [EnableHighQuality] && [fill, EnableHighQuality][..1] == [fill];
      assert [fill, DrawText][..1] == [fill] && [fill][..0] == [] && [EnableHighQuality][..0] == [];
      assert CountHighQuality([EnableHighQuality]) == 1 && CountHighQuality([fill]) == 0;
      assert CountHighQuality([EnableHighQuality, fill]) == 1 && CountHighQuality([fill, EnableHighQuality]) == 1;
      if quality then PaintOutcome([EnableHighQuality, fill, DrawText], None)
      else if text then PaintOutcome([fill, EnableHighQuality, DrawText], None)
      else PaintOutcome([fill, DrawText], None)
  }

  /** What `paint` draws once the bubble is visible and sized `width` x `height`, reading its settings from `p`. */
  function PaintTrace(p: Snapshot, width: Int32, height: Int32): (o: PaintOutcome)
    ensures CountHighQuality(o.trace) <= 1
    ensures o.failure.None? <==> GetColor(p, BALOON_BACKGROUND, Some(BLACK)).Ok?
    ensures o.failure.None? ==> |o.trace| >= 2 && o.trace[|o.trace| - 1] == DrawText
    ensures o.failure.Some? ==> o.trace == (if GetBool(p, HIGH_QUALITY, true).value then [EnableHighQuality] else [])
  {
    PaintSteps(GetBool(p, HIGH_QUALITY, true).value, BackgroundPaint(p), GetBool(p, HIGH_QUALITY_TEXT, true).value,
               width, height)
  }

  /** The quality rule: which of the two flags enables high quality decides where, and it is enabled at most once. */
  lemma PaintQualityRule(p: Snapshot, width: Int32, height: Int32)
    requires BackgroundPaint(p).Ok?
    ensures var fill := FillBackground(RoundRect(0, 0, width, height, 10, 10), BackgroundPaint(p).value);
      var trace := PaintTrace(p, width, height).trace;
      var quality, text := GetBool(p, HIGH_QUALITY, true).value, GetBool(p, HIGH_QUALITY_TEXT, true).value;
      (quality ==> trace == [EnableHighQuality, fill, DrawText]) &&
      (!quality && text ==> trace == [fill, EnableHighQuality, DrawText]) &&
      (!quality && !text ==> trace == [fill, DrawText])
  {
  }

  /** With nothing configured: high quality, a black rounded rectangle over the whole bubble, then the text. */
  lemma PaintDefaults(p: Snapshot, width: Int32, height: Int32)
    requires HIGH_QUALITY !in p && HIGH_QUALITY_TEXT !in p && BALOON_BACKGROUND !in p
    ensures PaintTrace(p, width, height) ==
      PaintOutcome([EnableHighQuality, FillBackground(RoundRect(0, 0, width, height, 10, 10), BLACK), DrawText], None)
  {
  }

  // ---------------------------------------------------------------------------
  // The widget

  /** The label the bubble is: its visibility flag and the Swing state its constructor and `paint` set. */
  class Baloon {
    var isVisible: bool
    var bounds: Rect
    var minimumSize: Dimension
    var maximumSize: Dimension
    var foreground: Color
    var background: Color
    var font: Font

    /** `Baloon(windowWidth, windowHeight)`, once its settings have been read. */
    constructor (s: WidgetSettings, windowWidth: Int32, windowHeight: Int32)
      ensures !isVisible
      ensures bounds == InitialBounds(s.geometry, windowWidth, windowHeight)
      ensures minimumSize == Dimension(s.geometry.width, s.geometry.height)
      ensures maximumSize == Dimension(s.geometry.width, Wrap32(s.geometry.height * 3))
      ensures foreground == s.foreground && background == Color(0, 0, 0, 0)
      ensures font == Font(s.fontName, s.fontSize)
    {
      isVisible := false;
      var size := Rect(0, 0, s.geometry.width, s.geometry.height);
      minimumSize := Dimension(s.geometry.width, s.geometry.height);
      maximumSize := Dimension(s.geometry.width, Wrap32(s.geometry.height * 3));
      bounds := size.(x := PlacementX(s.geometry, windowWidth), y := PlacementY(s.geometry, windowHeight));
      foreground := s.foreground;
      background := Color(0, 0, 0, 0);
      font := Font(s.fontName, s.fontSize);
    }

    /** `toggle(visible)`: shown or hidden, exactly as asked, whatever it was before. */
    method Toggle(visible: bool)
      modifies this
      ensures isVisible == visible
      ensures bounds == old(bounds) && minimumSize == old(minimumSize) && maximumSize == old(maximumSize)
      ensures foreground == old(foreground) && background == old(background) && font == old(font)
    {
      isVisible := visible;
    }

    /**
     * `paint(g)`: nothing while hidden; otherwise the height becomes the
     * preferred height the layout reports, and the trace is drawn at that size.
     */
    method Paint(p: Snapshot, preferredHeight: Int32) returns (o: PaintOutcome)
      modifies this
      ensures !old(isVisible) ==> o == PaintOutcome([], None) && bounds == old(bounds)
      ensures old(isVisible) ==> bounds == old(bounds).(height := preferredHeight)
      ensures old(isVisible) ==> o.trace == PaintTrace(p, bounds.width, preferredHeight).trace
      ensures old(isVisible) ==> o.failure == PaintTrace(p, bounds.width, preferredHeight).failure
      ensures isVisible == old(isVisible) && minimumSize == old(minimumSize) && maximumSize == old(maximumSize)
      ensures foreground == old(foreground) && background == old(background) && font == old(font)
    {
      if !isVisible {
        return PaintOutcome([], None);
      }
      bounds := bounds.(height := preferredHeight);
      var quality := GetBool(p, HIGH_QUALITY, true).value;
      var trace: seq<Event> := [];
      if quality {
        trace := trace + [EnableHighQuality];
      }
      var paint := BackgroundPaint(p);
      if paint.Err? {
        return PaintOutcome(trace, Some(paint.error));
      }
      trace := trace + [FillBackground(RoundRect(0, 0, bounds.width, bounds.height, 10, 10), paint.value)];
      if GetBool(p, HIGH_QUALITY_TEXT, true).value && !quality {
        trace := trace + [EnableHighQuality];
      }
      trace := trace + [DrawText];
      o := PaintOutcome(trace, None);
    }
  }
}
