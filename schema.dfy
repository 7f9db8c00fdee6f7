/**
 * The settings schema: six sections with their bounds and enumerations, the
 * validity predicate they define, the declared defaults, and `clamp`.
 *
 * Numeric fields are `real` because the schema accepts any number in range,
 * fractions included.
 */
module SettingsSchema {
  import opened Wrappers

  /** The identifiers a floating-button order may hold. */
  datatype FabAction = HomeAction | BackAction | ForwardAction | SearchAction | SettingsAction | RefreshAction

  datatype StartState = Last | Maximized | Normal
  datatype UaMode = UaDefault | ChromeDesktop | ChromeAndroid | UaCustom
  datatype DpiMode = Off | Demergi
  datatype AdblockStrength = Ads | AdsAndTracking | Full
  datatype Language = En | Ru
  datatype Theme = YtDark | YtLight | Auto
  datatype IconSet = Lucide | Material
  datatype FabPosition = RightBottom | LeftBottom
  datatype FabSize = Small | Medium | Large
  datatype FabShape = Circle | Rounded

  /** `height == None` is the schema's `null`: keep whatever height the window has. */
  datatype WindowSettings = WindowSettings(
    width: real,
    height: Option<real>,
    startState: StartState,
    alwaysOnTop: bool,
    resizable: bool,
    minWidth: real,
    minHeight: real)

  datatype UaSettings = UaSettings(mode: UaMode, custom: string, reloadOnChange: bool)

  datatype DpiSettings = DpiSettings(mode: DpiMode, port: real, bypass: string, autoStart: bool)

  datatype AdblockSettings = AdblockSettings(enabled: bool, strength: AdblockStrength, cosmetics: bool)

  datatype UiSettings = UiSettings(
    language: Language,
    theme: Theme,
    scale: real,
    backdropOpacity: real,
    animations: bool,
    hotkeys: bool,
    autoCloseOnNav: bool,
    closeOnEsc: bool,
    closeOnOutside: bool,
    iconSet: IconSet)

  datatype FabSettings = FabSettings(
    position: FabPosition,
    padding: real,
    size: FabSize,
    shape: FabShape,
    opacity: real,
    hoverOpen: bool,
    closeOnVideoClick: bool,
    tooltips: bool,
    buttonOrder: seq<FabAction>)

  /**
   * What the schema produces: every section is optional, because a section
   * that is absent from the input stays absent.
   */
  datatype Settings = Settings(
    version: int,
    window: Option<WindowSettings>,
    ua: Option<UaSettings>,
    dpi: Option<DpiSettings>,
    adblock: Option<AdblockSettings>,
    ui: Option<UiSettings>,
    fab: Option<FabSettings>)

  /** The canonical in-memory snapshot: all six sections present. */
  datatype Normalized = Normalized(
    version: int,
    window: WindowSettings,
    ua: UaSettings,
    dpi: DpiSettings,
    adblock: AdblockSettings,
    ui: UiSettings,
    fab: FabSettings)

  // Bounds of the schema.

  const MinWindowWidth: real := 800.0
  const MaxWindowWidth: real := 3840.0
  const MinWindowHeight: real := 600.0
  const MaxWindowHeight: real := 2160.0
  const MaxUaCustomLength: nat := 512
  const MinPort: real := 1.0
  const MaxPort: real := 65535.0

  predicate ValidWindow(w: WindowSettings)
  {
    && MinWindowWidth <= w.width <= MaxWindowWidth
    && (w.height.Some? ==> MinWindowHeight <= w.height.value <= MaxWindowHeight)
    && 640.0 <= w.minWidth <= 3840.0
    && 480.0 <= w.minHeight <= 2160.0
  }

  predicate ValidUa(u: UaSettings)
  {
    |u.custom| <= MaxUaCustomLength
  }

  predicate ValidDpi(d: DpiSettings)
  {
    MinPort <= d.port <= MaxPort
  }

  predicate ValidScale(x: real)
  {
    x == 0.9 || x == 1.0 || x == 1.1 || x == 1.25
  }

  predicate ValidUi(u: UiSettings)
  {
    && ValidScale(u.scale)
    && 0.0 <= u.backdropOpacity <= 0.4
  }

  /** Five or six identifiers; repeated identifiers are allowed. */
  predicate ValidButtonOrder(order: seq<FabAction>)
  {
    5 <= |order| <= 6
  }

  predicate ValidFab(f: FabSettings)
  {
    && 8.0 <= f.padding <= 32.0
    && 0.6 <= f.opacity <= 1.0
    && ValidButtonOrder(f.buttonOrder)
  }

  /** The adblock section has no bounds: every value of its type is accepted. */
  predicate ValidSettings(s: Settings)
  {
    && s.version == 1
    && (s.window.Some? ==> ValidWindow(s.window.value))
    && (s.ua.Some? ==> ValidUa(s.ua.value))
    && (s.dpi.Some? ==> ValidDpi(s.dpi.value))
    && (s.ui.Some? ==> ValidUi(s.ui.value))
    && (s.fab.Some? ==> ValidFab(s.fab.value))
  }

  predicate ValidNormalized(n: Normalized)
  {
    ValidSettings(Widen(n))
  }

  /** A snapshot seen as schema output, every section present. */
  function Widen(n: Normalized): (s: Settings)
    ensures s.window.Some? && s.ua.Some? && s.dpi.Some? && s.adblock.Some? && s.ui.Some? && s.fab.Some?
    ensures s.version == n.version && s.window.value == n.window && s.fab.value == n.fab
  {
    Settings(n.version, Some(n.window), Some(n.ua), Some(n.dpi), Some(n.adblock), Some(n.ui), Some(n.fab))
  }

  // The declared default of every field.

  const DefaultWindow := WindowSettings(1280.0, None, Last, false, true, 900.0, 600.0)
  const DefaultUa := UaSettings(UaDefault, "", true)
  const DefaultDpi := DpiSettings(Demergi, 8080.0, "", true)
  const DefaultAdblock := AdblockSettings(true, Full, true)
  const DefaultUi := UiSettings(En, YtDark, 1.0, 0.2, true, true, true, true, true, Lucide)
  const DefaultButtonOrder: seq<FabAction> :=
    [HomeAction, BackAction, ForwardAction, RefreshAction, SearchAction, SettingsAction]
  const DefaultFab := FabSettings(RightBottom, 24.0, Medium, Circle, 1.0, false, true, true, DefaultButtonOrder)

  /** `defaultSettings`: every section present, every field at its default. */
  const DefaultSettings := Settings(
    1, Some(DefaultWindow), Some(DefaultUa), Some(DefaultDpi),
    Some(DefaultAdblock), Some(DefaultUi), Some(DefaultFab))

  /** The defaults satisfy the schema, and the default order holds each identifier once. */
  lemma DefaultsValid()
    ensures ValidSettings(DefaultSettings)
    ensures forall i, j :: 0 <= i < j < |DefaultButtonOrder| ==> DefaultButtonOrder[i] != DefaultButtonOrder[j]
    ensures forall a: FabAction :: a in DefaultButtonOrder
  {
    forall a: FabAction
      ensures a in DefaultButtonOrder
    {
      match a
      case HomeAction => assert DefaultButtonOrder[0] == a;
      case BackAction => assert DefaultButtonOrder[1] == a;
      case ForwardAction => assert DefaultButtonOrder[2] == a;
      case RefreshAction => assert DefaultButtonOrder[3] == a;
      case SearchAction => assert DefaultButtonOrder[4] == a;
      case SettingsAction => assert DefaultButtonOrder[5] == a;
    }
  }

  /** `clamp(value, min, max) = Math.min(Math.max(value, min), max)`. */
  function Clamp(value: real, min: real, max: real): (r: real)
    ensures min <= max ==> min <= r <= max
    ensures min <= value <= max ==> r == value
    ensures value < min && min <= max ==> r == min
    ensures max < value ==> r == max
    ensures max < min ==> r == max
  {
    var atLeast := if value < min then min else value;
    if atLeast < max then atLeast else max
  }
}
