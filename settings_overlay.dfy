/**
 * The settings overlay's draft editor. Opening the overlay fills a draft
 * from the current settings; every control patches one section of the
 * draft; typed-in numbers are clamped into the schema's bounds; the button
 * order is edited by swapping neighbours; saving hands the six sections to
 * `setSettings` as one partial. Nothing reaches the store before the save.
 */
module SettingsEditor {
  import opened Wrappers
  import opened JsonValues
  import opened DeepMerging
  import opened SettingsSchema
  import opened SettingsCodec
  import opened ButtonOrderMigration
  import SettingsStore

  // Defaults of the editor

  /** The proxy section written into the editor for a `defaultSettings` without one. */
  const FallbackDpi := DpiSettings(Off, 9880.0, "localhost;127.0.0.1", true)
  /** The adblock section written into the editor for a `defaultSettings` without one. */
  const FallbackAdblock := AdblockSettings(true, Full, true)

  const EditorWindow := WindowSettings(1280.0, None, Last, false, true, 900.0, 600.0)
  const EditorUa := UaSettings(UaDefault, "", true)
  const EditorDpi := DefaultSettings.dpi.GetOr(FallbackDpi)
  const EditorAdblock := DefaultSettings.adblock.GetOr(FallbackAdblock)
  const EditorUi := UiSettings(En, YtDark, 1.0, 0.2, true, true, true, true, true, Lucide)
  const EditorFab := FabSettings(
    RightBottom, 24.0, Medium, Circle, 1.0, false, true, true,
    [HomeAction, BackAction, ForwardAction, RefreshAction, SearchAction, SettingsAction])

  /**
   * The editor's own copies of the defaults are the schema's, and since
   * `defaultSettings` always holds a proxy and an adblock section, the two
   * fallbacks are never used: the editor's proxy default is demergi on 8080,
   * not off on 9880.
   */
  lemma EditorDefaultsAgree()
    ensures EditorWindow == DefaultWindow && EditorUa == DefaultUa && EditorUi == DefaultUi && EditorFab == DefaultFab
    ensures EditorDpi == DefaultDpi && EditorDpi != FallbackDpi
    ensures EditorAdblock == DefaultAdblock
  {
  }

  /**
   * `toNormalized`: version 1, and every section the incoming settings lack
   * taken from the editor's defaults. A section the schema produced is
   * complete, so spreading it over the default keeps it whole.
   */
  function ToNormalized(incoming: Settings): (r: Normalized)
    ensures r.version == 1
    ensures incoming.window.Some? ==> r.window == incoming.window.value
    ensures incoming.ua.Some? ==> r.ua == incoming.ua.value
    ensures incoming.dpi.Some? ==> r.dpi == incoming.dpi.value
    ensures incoming.adblock.Some? ==> r.adblock == incoming.adblock.value
    ensures incoming.ui.Some? ==> r.ui == incoming.ui.value
    ensures incoming.fab.Some? ==> r.fab == incoming.fab.value
    // a missing section gets the schema's default
    ensures incoming.window.None? ==> r.window == DefaultWindow
    ensures incoming.ua.None? ==> r.ua == DefaultUa
    ensures incoming.dpi.None? ==> r.dpi == DefaultDpi
    ensures incoming.adblock.None? ==> r.adblock == DefaultAdblock
    ensures incoming.ui.None? ==> r.ui == DefaultUi
    ensures incoming.fab.None? ==> r.fab == DefaultFab
    ensures ValidSettings(incoming) ==> ValidNormalized(r)
  {
    EditorDefaultsAgree();
    DefaultsValid();
    Normalized(
      1,
      incoming.window.GetOr(EditorWindow),
      incoming.ua.GetOr(EditorUa),
      incoming.dpi.GetOr(EditorDpi),
      incoming.adblock.GetOr(EditorAdblock),
      incoming.ui.GetOr(EditorUi),
      incoming.fab.GetOr(EditorFab))
  }

  /** The draft is the store's normalisation minus the button-order migration, and valid settings give a valid draft. */
  lemma ToNormalizedIsNormalizeWithoutMigration(incoming: Settings)
    requires incoming.version == 1
    ensures SettingsStore.WithMigratedOrder(ToNormalized(incoming)) == SettingsStore.Normalize(incoming)
    ensures ValidSettings(incoming) ==> ValidNormalized(ToNormalized(incoming))
    ensures SettingsStore.Settled(ToNormalized(incoming)) ==> ToNormalized(incoming) == SettingsStore.Normalize(incoming)
  {
    EditorDefaultsAgree();
  }

  /** A snapshot of the store, opened in the editor, is the draft unchanged. */
  lemma ToNormalizedOfSnapshot(n: Normalized)
    requires n.version == 1
    ensures ToNormalized(Widen(n)) == n
  {
  }

  // Patches: `{ ...d, section: { ...d.section, ...partial } }`

  /** The later of two optional values: what spreading `q` after `p` leaves for one field. */
  function Later<T>(p: Option<T>, q: Option<T>): (r: Option<T>)
    ensures q.Some? ==> r == q
    ensures q.None? ==> r == p
  {
    if q.Some? then q else p
  }

  /** What spreading a patch leaves in one field: the value supplied, or else the one before. */
  predicate Spread<T(==)>(patch: Option<T>, after: T, before: T)
  {
    if patch.Some? then after == patch.value else after == before
  }

  /** The fields a window patch supplies; `height: Some(None)` supplies `null`. */
  datatype WindowPatch = WindowPatch(
    width: Option<real>,
    height: Option<Option<real>>,
    startState: Option<StartState>,
    alwaysOnTop: Option<bool>,
    resizable: Option<bool>,
    minWidth: Option<real>,
    minHeight: Option<real>)

  const NoWindowChange := WindowPatch(None, None, None, None, None, None, None)

  function PatchWindow(w: WindowSettings, p: WindowPatch): WindowSettings
  {
    WindowSettings(
      p.width.GetOr(w.width), p.height.GetOr(w.height), p.startState.GetOr(w.startState),
      p.alwaysOnTop.GetOr(w.alwaysOnTop), p.resizable.GetOr(w.resizable),
      p.minWidth.GetOr(w.minWidth), p.minHeight.GetOr(w.minHeight))
  }

  /** `q` spread after `p`. */
  function ThenWindow(p: WindowPatch, q: WindowPatch): WindowPatch
  {
    WindowPatch(
      Later(p.width, q.width), Later(p.height, q.height), Later(p.startState, q.startState),
      Later(p.alwaysOnTop, q.alwaysOnTop), Later(p.resizable, q.resizable),
      Later(p.minWidth, q.minWidth), Later(p.minHeight, q.minHeight))
  }

  /** Every value the patch supplies is within the schema's bounds. */
  predicate ValidWindowPatch(p: WindowPatch)
  {
    && (p.width.Some? ==> MinWindowWidth <= p.width.value <= MaxWindowWidth)
    && (p.height.Some? && p.height.value.Some? ==> MinWindowHeight <= p.height.value.value <= MaxWindowHeight)
    && (p.minWidth.Some? ==> 640.0 <= p.minWidth.value <= 3840.0)
    && (p.minHeight.Some? ==> 480.0 <= p.minHeight.value <= 2160.0)
  }

  /** `updateWindow`. */
  function UpdateWindow(d: Normalized, p: WindowPatch): (r: Normalized)
    ensures r == d.(window := r.window)
    ensures Spread(p.width, r.window.width, d.window.width)
    ensures Spread(p.height, r.window.height, d.window.height)
    ensures Spread(p.startState, r.window.startState, d.window.startState)
    ensures Spread(p.alwaysOnTop, r.window.alwaysOnTop, d.window.alwaysOnTop)
    ensures Spread(p.resizable, r.window.resizable, d.window.resizable)
    ensures Spread(p.minWidth, r.window.minWidth, d.window.minWidth)
    ensures Spread(p.minHeight, r.window.minHeight, d.window.minHeight)
    ensures ValidNormalized(d) && ValidWindowPatch(p) ==> ValidNormalized(r)
  {
    d.(window := PatchWindow(d.window, p))
  }

  datatype UaPatch = UaPatch(mode: Option<UaMode>, custom: Option<string>, reloadOnChange: Option<bool>)

  const NoUaChange := UaPatch(None, None, None)

  function PatchUa(u: UaSettings, p: UaPatch): UaSettings
  {
    UaSettings(p.mode.GetOr(u.mode), p.custom.GetOr(u.custom), p.reloadOnChange.GetOr(u.reloadOnChange))
  }

  function ThenUa(p: UaPatch, q: UaPatch): UaPatch
  {
    UaPatch(Later(p.mode, q.mode), Later(p.custom, q.custom), Later(p.reloadOnChange, q.reloadOnChange))
  }

  predicate ValidUaPatch(p: UaPatch)
  {
    p.custom.Some? ==> |p.custom.value| <= MaxUaCustomLength
  }

  /** `updateUA`. */
  function UpdateUa(d: Normalized, p: UaPatch): (r: Normalized)
    ensures r == d.(ua := r.ua)
    ensures Spread(p.mode, r.ua.mode, d.ua.mode)
    ensures Spread(p.custom, r.ua.custom, d.ua.custom)
    ensures Spread(p.reloadOnChange, r.ua.reloadOnChange, d.ua.reloadOnChange)
    ensures ValidNormalized(d) && ValidUaPatch(p) ==> ValidNormalized(r)
  {
    d.(ua := PatchUa(d.ua, p))
  }

  datatype DpiPatch = DpiPatch(mode: Option<DpiMode>, port: Option<real>, bypass: Option<string>, autoStart: Option<bool>)

  const NoDpiChange := DpiPatch(None, None, None, None)

  function PatchDpi(x: DpiSettings, p: DpiPatch): DpiSettings
  {
    DpiSettings(p.mode.GetOr(x.mode), p.port.GetOr(x.port), p.bypass.GetOr(x.bypass), p.autoStart.GetOr(x.autoStart))
  }

  function ThenDpi(p: DpiPatch, q: DpiPatch): DpiPatch
  {
    DpiPatch(Later(p.mode, q.mode), Later(p.port, q.port), Later(p.bypass, q.bypass), Later(p.autoStart, q.autoStart))
  }

  predicate ValidDpiPatch(p: DpiPatch)
  {
    p.port.Some? ==> MinPort <= p.port.value <= MaxPort
  }

  /** `updateDpi`. */
  function UpdateDpi(d: Normalized, p: DpiPatch): (r: Normalized)
    ensures r == d.(dpi := r.dpi)
    ensures Spread(p.mode, r.dpi.mode, d.dpi.mode)
    ensures Spread(p.port, r.dpi.port, d.dpi.port)
    ensures Spread(p.bypass, r.dpi.bypass, d.dpi.bypass)
    ensures Spread(p.autoStart, r.dpi.autoStart, d.dpi.autoStart)
    ensures ValidNormalized(d) && ValidDpiPatch(p) ==> ValidNormalized(r)
  {
    d.(dpi := PatchDpi(d.dpi, p))
  }

  datatype AdblockPatch = AdblockPatch(enabled: Option<bool>, strength: Option<AdblockStrength>, cosmetics: Option<bool>)

  const NoAdblockChange := AdblockPatch(None, None, None)

  function PatchAdblock(a: AdblockSettings, p: AdblockPatch): AdblockSettings
  {
    AdblockSettings(p.enabled.GetOr(a.enabled), p.strength.GetOr(a.strength), p.cosmetics.GetOr(a.cosmetics))
  }

  function ThenAdblock(p: AdblockPatch, q: AdblockPatch): AdblockPatch
  {
    AdblockPatch(Later(p.enabled, q.enabled), Later(p.strength, q.strength), Later(p.cosmetics, q.cosmetics))
  }

  /** `updateAdblock`. */
  function UpdateAdblock(d: Normalized, p: AdblockPatch): (r: Normalized)
    ensures r == d.(adblock := r.adblock)
    ensures Spread(p.enabled, r.adblock.enabled, d.adblock.enabled)
    ensures Spread(p.strength, r.adblock.strength, d.adblock.strength)
    ensures Spread(p.cosmetics, r.adblock.cosmetics, d.adblock.cosmetics)
    ensures ValidNormalized(d) ==> ValidNormalized(r)
  {
    d.(adblock := PatchAdblock(d.adblock, p))
  }

  datatype UiPatch = UiPatch(
    language: Option<Language>,
    theme: Option<Theme>,
    scale: Option<real>,
    backdropOpacity: Option<real>,
    animations: Option<bool>,
    hotkeys: Option<bool>,
    autoCloseOnNav: Option<bool>,
    closeOnEsc: Option<bool>,
    closeOnOutside: Option<bool>,
    iconSet: Option<IconSet>)

  const NoUiChange := UiPatch(None, None, None, None, None, None, None, None, None, None)

  function PatchUi(u: UiSettings, p: UiPatch): UiSettings
  {
    UiSettings(
      p.language.GetOr(u.language), p.theme.GetOr(u.theme), p.scale.GetOr(u.scale),
      p.backdropOpacity.GetOr(u.backdropOpacity), p.animations.GetOr(u.animations),
      p.hotkeys.GetOr(u.hotkeys), p.autoCloseOnNav.GetOr(u.autoCloseOnNav),
      p.closeOnEsc.GetOr(u.closeOnEsc), p.closeOnOutside.GetOr(u.closeOnOutside),
      p.iconSet.GetOr(u.iconSet))
  }

  function ThenUi(p: UiPatch, q: UiPatch): UiPatch
  {
    UiPatch(
      Later(p.language, q.language), Later(p.theme, q.theme), Later(p.scale, q.scale),
      Later(p.backdropOpacity, q.backdropOpacity), Later(p.animations, q.animations),
      Later(p.hotkeys, q.hotkeys), Later(p.autoCloseOnNav, q.autoCloseOnNav),
      Later(p.closeOnEsc, q.closeOnEsc), Later(p.closeOnOutside, q.closeOnOutside),
      Later(p.iconSet, q.iconSet))
  }

  predicate ValidUiPatch(p: UiPatch)
  {
    && (p.scale.Some? ==> ValidScale(p.scale.value))
    && (p.backdropOpacity.Some? ==> 0.0 <= p.backdropOpacity.value <= 0.4)
  }

  /** `updateUI`. */
  function UpdateUi(d: Normalized, p: UiPatch): (r: Normalized)
    ensures r == d.(ui := r.ui)
    ensures Spread(p.language, r.ui.language, d.ui.language)
    ensures Spread(p.theme, r.ui.theme, d.ui.theme)
    ensures Spread(p.scale, r.ui.scale, d.ui.scale)
    ensures Spread(p.backdropOpacity, r.ui.backdropOpacity, d.ui.backdropOpacity)
    ensures Spread(p.animations, r.ui.animations, d.ui.animations)
    ensures Spread(p.hotkeys, r.ui.hotkeys, d.ui.hotkeys)
    ensures Spread(p.autoCloseOnNav, r.ui.autoCloseOnNav, d.ui.autoCloseOnNav)
    ensures Spread(p.closeOnEsc, r.ui.closeOnEsc, d.ui.closeOnEsc)
    ensures Spread(p.closeOnOutside, r.ui.closeOnOutside, d.ui.closeOnOutside)
    ensures Spread(p.iconSet, r.ui.iconSet, d.ui.iconSet)
    ensures ValidNormalized(d) && ValidUiPatch(p) ==> ValidNormalized(r)
  {
    d.(ui := PatchUi(d.ui, p))
  }

  datatype FabPatch = FabPatch(
    position: Option<FabPosition>,
    padding: Option<real>,
    size: Option<FabSize>,
    shape: Option<FabShape>,
    opacity: Option<real>,
    hoverOpen: Option<bool>,
    closeOnVideoClick: Option<bool>,
    tooltips: Option<bool>,
    buttonOrder: Option<seq<FabAction>>)

  const NoFabChange := FabPatch(None, None, None, None, None, None, None, None, None)

  function PatchFab(f: FabSettings, p: FabPatch): FabSettings
  {
    FabSettings(
      p.position.GetOr(f.position), p.padding.GetOr(f.padding), p.size.GetOr(f.size),
      p.shape.GetOr(f.shape), p.opacity.GetOr(f.opacity), p.hoverOpen.GetOr(f.hoverOpen),
      p.closeOnVideoClick.GetOr(f.closeOnVideoClick), p.tooltips.GetOr(f.tooltips),
      p.buttonOrder.GetOr(f.buttonOrder))
  }

  function ThenFab(p: FabPatch, q: FabPatch): FabPatch
  {
    FabPatch(
      Later(p.position, q.position), Later(p.padding, q.padding), Later(p.size, q.size),
      Later(p.shape, q.shape), Later(p.opacity, q.opacity), Later(p.hoverOpen, q.hoverOpen),
      Later(p.closeOnVideoClick, q.closeOnVideoClick), Later(p.tooltips, q.tooltips),
      Later(p.buttonOrder, q.buttonOrder))
  }

  predicate ValidFabPatch(p: FabPatch)
  {
    && (p.padding.Some? ==> 8.0 <= p.padding.value <= 32.0)
    && (p.opacity.Some? ==> 0.6 <= p.opacity.value <= 1.0)
    && (p.buttonOrder.Some? ==> ValidButtonOrder(p.buttonOrder.value))
  }

  /** `updateFab`. */
  function UpdateFab(d: Normalized, p: FabPatch): (r: Normalized)
    ensures r == d.(fab := r.fab)
    ensures Spread(p.position, r.fab.position, d.fab.position)
    ensures Spread(p.padding, r.fab.padding, d.fab.padding)
    ensures Spread(p.size, r.fab.size, d.fab.size)
    ensures Spread(p.shape, r.fab.shape, d.fab.shape)
    ensures Spread(p.opacity, r.fab.opacity, d.fab.opacity)
    ensures Spread(p.hoverOpen, r.fab.hoverOpen, d.fab.hoverOpen)
    ensures Spread(p.closeOnVideoClick, r.fab.closeOnVideoClick, d.fab.closeOnVideoClick)
    ensures Spread(p.tooltips, r.fab.tooltips, d.fab.tooltips)
    ensures Spread(p.buttonOrder, r.fab.buttonOrder, d.fab.buttonOrder)
    ensures ValidNormalized(d) && ValidFabPatch(p) ==> ValidNormalized(r)
  {
    d.(fab := PatchFab(d.fab, p))
  }

  /**
   * The window reducer touches the window section only, an empty patch
   * changes nothing, two patches in a row are one combined patch (so
   * repeating a patch is applying it once), and in-bounds values keep a
   * valid draft valid.
   */
  lemma UpdateWindowLaws(d: Normalized, p: WindowPatch, q: WindowPatch)
    ensures UpdateWindow(d, p).(window := d.window) == d
    ensures UpdateWindow(d, NoWindowChange) == d
    ensures UpdateWindow(UpdateWindow(d, p), q) == UpdateWindow(d, ThenWindow(p, q))
    ensures UpdateWindow(UpdateWindow(d, p), p) == UpdateWindow(d, p)
    ensures ValidNormalized(d) && ValidWindowPatch(p) ==> ValidNormalized(UpdateWindow(d, p))
    ensures SettingsStore.Settled(d) ==> SettingsStore.Settled(UpdateWindow(d, p))
  {
  }

  /** The same laws for the user-agent reducer. */
  lemma UpdateUaLaws(d: Normalized, p: UaPatch, q: UaPatch)
    ensures UpdateUa(d, p).(ua := d.ua) == d
    ensures UpdateUa(d, NoUaChange) == d
    ensures UpdateUa(UpdateUa(d, p), q) == UpdateUa(d, ThenUa(p, q))
    ensures UpdateUa(UpdateUa(d, p), p) == UpdateUa(d, p)
    ensures ValidNormalized(d) && ValidUaPatch(p) ==> ValidNormalized(UpdateUa(d, p))
    ensures SettingsStore.Settled(d) ==> SettingsStore.Settled(UpdateUa(d, p))
  {
  }

  /** The same laws for the proxy reducer. */
  lemma UpdateDpiLaws(d: Normalized, p: DpiPatch, q: DpiPatch)
    ensures UpdateDpi(d, p).(dpi := d.dpi) == d
    ensures UpdateDpi(d, NoDpiChange) == d
    ensures UpdateDpi(UpdateDpi(d, p), q) == UpdateDpi(d, ThenDpi(p, q))
    ensures UpdateDpi(UpdateDpi(d, p), p) == UpdateDpi(d, p)
    ensures ValidNormalized(d) && ValidDpiPatch(p) ==> ValidNormalized(UpdateDpi(d, p))
    ensures SettingsStore.Settled(d) ==> SettingsStore.Settled(UpdateDpi(d, p))
  {
  }

  /** The same laws for the adblock reducer; any adblock patch keeps a valid draft valid. */
  lemma UpdateAdblockLaws(d: Normalized, p: AdblockPatch, q: AdblockPatch)
    ensures UpdateAdblock(d, p).(adblock := d.adblock) == d
    ensures UpdateAdblock(d, NoAdblockChange) == d
    ensures UpdateAdblock(UpdateAdblock(d, p), q) == UpdateAdblock(d, ThenAdblock(p, q))
    ensures UpdateAdblock(UpdateAdblock(d, p), p) == UpdateAdblock(d, p)
    ensures ValidNormalized(d) ==> ValidNormalized(UpdateAdblock(d, p))
    ensures SettingsStore.Settled(d) ==> SettingsStore.Settled(UpdateAdblock(d, p))
  {
  }

  /** The same laws for the interface reducer. */
  lemma UpdateUiLaws(d: Normalized, p: UiPatch, q: UiPatch)
    ensures UpdateUi(d, p).(ui := d.ui) == d
    ensures UpdateUi(d, NoUiChange) == d
    ensures UpdateUi(UpdateUi(d, p), q) == UpdateUi(d, ThenUi(p, q))
    ensures UpdateUi(UpdateUi(d, p), p) == UpdateUi(d, p)
    ensures ValidNormalized(d) && ValidUiPatch(p) ==> ValidNormalized(UpdateUi(d, p))
    ensures SettingsStore.Settled(d) ==> SettingsStore.Settled(UpdateUi(d, p))
  {
    assert PatchUi(PatchUi(d.ui, p), q) == PatchUi(d.ui, ThenUi(p, q));
    assert PatchUi(PatchUi(d.ui, p), p) == PatchUi(d.ui, p);
  }

  /**
   * The same laws for the floating-button reducer; a patch without a new
   * order keeps a settled draft settled.
   */
  lemma UpdateFabLaws(d: Normalized, p: FabPatch, q: FabPatch)
    ensures UpdateFab(d, p).(fab := d.fab) == d
    ensures UpdateFab(d, NoFabChange) == d
    ensures UpdateFab(UpdateFab(d, p), q) == UpdateFab(d, ThenFab(p, q))
    ensures UpdateFab(UpdateFab(d, p), p) == UpdateFab(d, p)
    ensures ValidNormalized(d) && ValidFabPatch(p) ==> ValidNormalized(UpdateFab(d, p))
    ensures SettingsStore.Settled(d) && p.buttonOrder.None? ==> SettingsStore.Settled(UpdateFab(d, p))
  {
    assert PatchFab(PatchFab(d.fab, p), q) == PatchFab(d.fab, ThenFab(p, q));
    assert PatchFab(PatchFab(d.fab, p), p) == PatchFab(d.fab, p);
  }

  // Numbers typed into the form

  /**
   * `Number(text) || fallback`. `entered` is the number the text denotes,
   * `None` when it denotes none (`NaN`); the empty text denotes 0. Zero and
   * `NaN` are falsy and give the fallback.
   */
  function NumberOr(entered: Option<real>, fallback: real): (r: real)
    ensures entered.Some? && entered.value != 0.0 ==> r == entered.value
    ensures entered.None? || entered.value == 0.0 ==> r == fallback
  {
    if entered.Some? && entered.value != 0.0 then entered.value else fallback
  }

  /**
   * `applyWidth`: the width clamped into the schema's range replaces the
   * draft's width, and nothing else changes.
   */
  function ApplyWidth(d: Normalized, value: real): (r: Normalized)
    ensures r == d.(window := d.window.(width := r.window.width))
    ensures MinWindowWidth <= r.window.width <= MaxWindowWidth
    ensures MinWindowWidth <= value <= MaxWindowWidth ==> r.window.width == value
    ensures value < MinWindowWidth ==> r.window.width == MinWindowWidth
    ensures MaxWindowWidth < value ==> r.window.width == MaxWindowWidth
    ensures ValidNormalized(d) ==> ValidNormalized(r)
  {
    var width := Clamp(value, MinWindowWidth, MaxWindowWidth);
    UpdateWindow(d, NoWindowChange.(width := Some(width)))
  }

  /**
   * Leaving the custom-width field: the typed number, or the draft's width
   * when the text is empty, zero or not a number, goes through `applyWidth`.
   * On a valid draft a text that gives no number leaves the draft as it was.
   */
  function CustomWidthCommitted(d: Normalized, entered: Option<real>): (r: Normalized)
    ensures r == ApplyWidth(d, NumberOr(entered, d.window.width))
    ensures ValidNormalized(d) ==> ValidNormalized(r)
    ensures ValidNormalized(d) && (entered.None? || entered.value == 0.0) ==> r == d
  {
    ApplyWidth(d, NumberOr(entered, d.window.width))
  }

  /**
   * The proxy-port field: the typed number, or the draft's port when the
   * text gives none, clamped into 1..65535. The port is in range afterwards
   * whatever the draft held, and nothing but the port changes.
   */
  function PortEdited(d: Normalized, entered: Option<real>): (r: Normalized)
    ensures r == d.(dpi := d.dpi.(port := r.dpi.port))
    ensures MinPort <= r.dpi.port <= MaxPort
    ensures entered.Some? && MinPort <= entered.value <= MaxPort ==> r.dpi.port == entered.value
    ensures ValidNormalized(d) && (entered.None? || entered.value == 0.0) ==> r == d
    ensures ValidSettings(Widen(d.(dpi := DefaultDpi))) ==> ValidNormalized(r)
  {
    var port := Clamp(NumberOr(entered, d.dpi.port), MinPort, MaxPort);
    UpdateDpi(d, NoDpiChange.(port := Some(port)))
  }

  /**
   * `applyUA`: the mode is set; a custom string is kept only in custom
   * mode, where an omitted one falls back to the saved settings' string;
   * any other mode clears it.
   */
  function ApplyUa(d: Normalized, saved: Normalized, mode: UaMode, custom: Option<string>): (r: Normalized)
    ensures r == d.(ua := r.ua)
    ensures r.ua.mode == mode && r.ua.reloadOnChange == d.ua.reloadOnChange
    ensures mode != UaCustom ==> r.ua.custom == ""
    ensures mode == UaCustom && custom.Some? ==> r.ua.custom == custom.value
    ensures mode == UaCustom && custom.None? ==> r.ua.custom == saved.ua.custom
    ensures ValidNormalized(d) && ValidUa(saved.ua) && (custom.Some? ==> |custom.value| <= MaxUaCustomLength)
      ==> ValidNormalized(r)
  {
    var nextCustom := if mode == UaCustom then custom.GetOr(saved.ua.custom) else "";
    UpdateUa(d, UaPatch(Some(mode), Some(nextCustom), None))
  }

  // Reordering the floating buttons

  /** `Math.min(length - 1, Math.max(0, index + direction))`. */
  function MoveTarget(length: int, index: int, direction: int): (t: int)
    ensures 1 <= length ==> 0 <= t < length
    ensures 0 <= index + direction < length ==> t == index + direction
    ensures index + direction < 0 <= length - 1 ==> t == 0
    ensures length <= index + direction ==> t == length - 1
  {
    var atLeast := if index + direction < 0 then 0 else index + direction;
    if length - 1 < atLeast then length - 1 else atLeast
  }

  /** `s` with the entries at `i` and `j` exchanged. */
  function Swap<T>(s: seq<T>, i: nat, j: nat): seq<T>
    requires i < |s| && j < |s|
  {
    s[i := s[j]][j := s[i]]
  }

  /** What `moveItem` returns: the entry at `index` exchanged with its neighbour in `direction`, if there is one. */
  function Moved<T>(s: seq<T>, index: nat, direction: int): seq<T>
    requires index < |s|
  {
    Swap(s, MoveTarget(|s|, index, direction), index)
  }

  /**
   * Moving keeps the same entries, exchanges the entry with its neighbour,
   * touches nothing else, and at either end of the list changes nothing.
   */
  lemma MovedPermutes<T>(s: seq<T>, index: nat, direction: int)
    requires index < |s|
    requires direction == -1 || direction == 1
    ensures var r := Moved(s, index, direction);
      && |r| == |s|
      && multiset(r) == multiset(s)
      && (0 <= index + direction < |s| ==> r[index + direction] == s[index] && r[index] == s[index + direction])
      && (forall k :: 0 <= k < |s| && k != index && k != index + direction ==> r[k] == s[k])
      && (index + direction < 0 || |s| <= index + direction ==> r == s)
  {
    var t := MoveTarget(|s|, index, direction);
    SwapPermutes(s, t, index);
    if index + direction < 0 || |s| <= index + direction {
      assert t == index;
    }
  }

  /** Exchanging two entries keeps the entries and touches no other position. */
  lemma SwapPermutes<T>(s: seq<T>, i: nat, j: nat)
    requires i < |s| && j < |s|
    ensures var r := Swap(s, i, j);
      && |r| == |s|
      && multiset(r) == multiset(s)
      && r[i] == s[j] && r[j] == s[i]
      && (forall k :: 0 <= k < |s| && k != i && k != j ==> r[k] == s[k])
      && (i == j ==> r == s)
  {
    var s1 := s[i := s[j]];
    assert multiset(s1) == multiset(s) - multiset{s[i]} + multiset{s[j]};
  }

  /** Moving an entry and then moving it back restores the list. */
  lemma MoveBackRestores<T>(s: seq<T>, index: nat, direction: int)
    requires index < |s|
    requires direction == -1 || direction == 1
    requires 0 <= index + direction < |s|
    ensures Moved(Moved(s, index, direction), index + direction, -direction) == s
  {
    var r := Moved(s, index, direction);
    assert MoveTarget(|r|, index + direction, -direction) == index;
    var back := Moved(r, index + direction, -direction);
    assert forall k :: 0 <= k < |s| ==> back[k] == s[k];
  }

  /**
   * `moveItem`: copy the list into a fresh array, compute the neighbour's
   * position clamped into the list, and exchange the two cells.
   */
  method MoveItem<T>(arr: seq<T>, index: nat, direction: int) returns (next: seq<T>)
    requires index < |arr|
    requires direction == -1 || direction == 1
    ensures next == Moved(arr, index, direction)
  {
    var a := new T[|arr|](k requires 0 <= k < |arr| => arr[k]);
    var target := MoveTarget(a.Length, index, direction);
    var tmp := a[target];
    a[target] := a[index];
    a[index] := tmp;
    next := a[..];
  }

  /**
   * `reorderButton`: the draft's button order with one entry moved. The
   * order keeps its entries, so a valid draft stays valid and a settled one
   * stays settled; nothing but the order changes.
   */
  method ReorderButton(d: Normalized, index: nat, direction: int) returns (r: Normalized)
    requires index < |d.fab.buttonOrder|
    requires direction == -1 || direction == 1
    ensures r == d.(fab := d.fab.(buttonOrder := Moved(d.fab.buttonOrder, index, direction)))
    ensures multiset(r.fab.buttonOrder) == multiset(d.fab.buttonOrder)
    ensures ValidNormalized(d) ==> ValidNormalized(r)
    ensures SettingsStore.Settled(d) ==> SettingsStore.Settled(r)
  {
    var nextOrder := MoveItem(d.fab.buttonOrder, index, direction);
    MovedPermutes(d.fab.buttonOrder, index, direction);
    PermutationKeepsSettled(d.fab.buttonOrder, nextOrder);
    r := UpdateFab(d, NoFabChange.(buttonOrder := Some(nextOrder)));
  }

  /** Whether the migration applies depends only on the entries of an order, not on their positions. */
  lemma PermutationKeepsSettled(a: seq<FabAction>, b: seq<FabAction>)
    requires multiset(a) == multiset(b)
    ensures SettingsStore.MigrateOrder(a) == a ==> SettingsStore.MigrateOrder(b) == b
  {
    assert |a| == |multiset(a)| == |multiset(b)| == |b|;
    assert RefreshAction in a <==> RefreshAction in multiset(a);
    assert RefreshAction in b <==> RefreshAction in multiset(b);
    assert ForwardAction in a <==> ForwardAction in multiset(a);
    assert ForwardAction in b <==> ForwardAction in multiset(b);
    if SettingsStore.MigrateOrder(a) == a {
      MigrateLeavesOthers(b, ForwardAction, RefreshAction);
    }
  }

  // Saving

  /** What `handleSave` hands to `setSettings`: the six sections of the draft, without a version. */
  function SavePartial(d: Normalized): (m: map<string, Json>)
    ensures m.Keys == {"window", "ua", "dpi", "adblock", "ui", "fab"}
  {
    map[
      "window" := Obj(WindowToJson(d.window)),
      "ua" := Obj(UaToJson(d.ua)),
      "dpi" := Obj(DpiToJson(d.dpi)),
      "adblock" := Obj(AdblockToJson(d.adblock)),
      "ui" := Obj(UiToJson(d.ui)),
      "fab" := Obj(FabToJson(d.fab))]
  }

  /** A section of the saved partial is that section's object form in the snapshot's document. */
  lemma SavePartialIsForm(d: Normalized, section: string)
    requires section in {"window", "ua", "dpi", "adblock", "ui", "fab"}
    ensures SavePartial(d)[section] == NormalizedToJson(d)[section]
  {
    SettingsStore.SnapshotForm(d);
  }

  /** A partial holding a snapshot's section form replaces that section of any snapshot whole. */
  lemma MergedSectionIsSource(current: Normalized, d: Normalized, p: map<string, Json>, section: string)
    requires section in {"window", "ua", "dpi", "adblock", "ui", "fab"}
    requires section in p && p[section] == NormalizedToJson(d)[section]
    ensures Field(DeepMerge(NormalizedToJson(current), p), section) == p[section]
  {
    var c := NormalizedToJson(current);
    SettingsStore.SnapshotSectionIsObject(d, section);
    SettingsStore.SnapshotCoverAt(current, d, section);
    MergedObjectAt(c, p, section);
    CoveringSourceWins(AsObject(Field(c, section)), p[section].fields);
  }

  /** Every section of the saved draft replaces the store's section whole. */
  lemma SavedSectionAt(current: Normalized, d: Normalized, section: string)
    requires section in {"window", "ua", "dpi", "adblock", "ui", "fab"}
    ensures Field(SettingsStore.UpdateDocument(current, SavePartial(d)), section) == NormalizedToJson(d)[section]
  {
    var p := SavePartial(d);
    SettingsStore.UpdateDocumentAt(current, p, section);
    SavePartialIsForm(d, section);
    MergedSectionIsSource(current, d, p, section);
  }

  /**
   * Saving a valid, settled draft commits exactly the draft, whatever the
   * store held before: every section is sent whole, so nothing of the old
   * snapshot survives the merge.
   */
  lemma SaveCommitsDraft(current: Normalized, d: Normalized)
    requires ValidNormalized(d) && SettingsStore.Settled(d)
    ensures SettingsStore.Update(current, SavePartial(d)) == Ok(d)
  {
    SettingsStore.SnapshotForm(d);
    SavedSectionAt(current, d, "window");
    SavedSectionAt(current, d, "ua");
    SavedSectionAt(current, d, "dpi");
    SavedSectionAt(current, d, "adblock");
    SavedSectionAt(current, d, "ui");
    SavedSectionAt(current, d, "fab");
    SettingsStore.UpdateOfForms(current, SavePartial(d), d);
  }
}
