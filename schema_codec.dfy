/**
 * The schema as a parser from JavaScript values (`settingsSchema.parse`) and
 * the encoding of a snapshot as the object that is written to disk.
 *
 * Parsing follows the schema library's rules: an absent or `undefined` field
 * takes its declared default, a present field must have the right type and
 * lie within its bounds, unknown keys are dropped, and a section that is
 * absent stays absent (the section default applies only to an explicit
 * `undefined` inside an object marked optional, which yields absence).
 */
module SettingsCodec {
  import opened Wrappers
  import opened JsonValues
  import opened SettingsSchema
  import opened DeepMerging

  // Enumerations: names and their inverses.

  function FabActionName(a: FabAction): (s: string)
    ensures FabActionFromName(s) == Some(a)
    ensures forall t :: FabActionFromName(t) == Some(a) ==> t == s
  {
    match a
    case HomeAction => "home"
    case BackAction => "back"
    case ForwardAction => "forward"
    case SearchAction => "search"
    case SettingsAction => "settings"
    case RefreshAction => "refresh"
  }

  function FabActionFromName(s: string): Option<FabAction>
  {
    if s == "home" then Some(HomeAction)
    else if s == "back" then Some(BackAction)
    else if s == "forward" then Some(ForwardAction)
    else if s == "search" then Some(SearchAction)
    else if s == "settings" then Some(SettingsAction)
    else if s == "refresh" then Some(RefreshAction)
    else None
  }

  function StartStateName(x: StartState): (s: string)
    ensures StartStateFromName(s) == Some(x)
    ensures forall t :: StartStateFromName(t) == Some(x) ==> t == s
  {
    match x
    case Last => "last"
    case Maximized => "maximized"
    case Normal => "normal"
  }

  function StartStateFromName(s: string): Option<StartState>
  {
    if s == "last" then Some(Last)
    else if s == "maximized" then Some(Maximized)
    else if s == "normal" then Some(Normal)
    else None
  }

  function UaModeName(x: UaMode): (s: string)
    ensures UaModeFromName(s) == Some(x)
    ensures forall t :: UaModeFromName(t) == Some(x) ==> t == s
  {
    match x
    case UaDefault => "default"
    case ChromeDesktop => "chrome-desktop"
    case ChromeAndroid => "chrome-android"
    case UaCustom => "custom"
  }

  function UaModeFromName(s: string): Option<UaMode>
  {
    if s == "default" then Some(UaDefault)
    else if s == "chrome-desktop" then Some(ChromeDesktop)
    else if s == "chrome-android" then Some(ChromeAndroid)
    else if s == "custom" then Some(UaCustom)
    else None
  }

  function DpiModeName(x: DpiMode): (s: string)
    ensures DpiModeFromName(s) == Some(x)
    ensures forall t :: DpiModeFromName(t) == Some(x) ==> t == s
  {
    match x
    case Off => "off"
    case Demergi => "demergi"
  }

  function DpiModeFromName(s: string): Option<DpiMode>
  {
    if s == "off" then Some(Off)
    else if s == "demergi" then Some(Demergi)
    else None
  }

  function StrengthName(x: AdblockStrength): (s: string)
    ensures StrengthFromName(s) == Some(x)
    ensures forall t :: StrengthFromName(t) == Some(x) ==> t == s
  {
    match x
    case Ads => "ads"
    case AdsAndTracking => "ads-and-tracking"
    case Full => "full"
  }

  function StrengthFromName(s: string): Option<AdblockStrength>
  {
    if s == "ads" then Some(Ads)
    else if s == "ads-and-tracking" then Some(AdsAndTracking)
    else if s == "full" then Some(Full)
    else None
  }

  function LanguageName(x: Language): (s: string)
    ensures LanguageFromName(s) == Some(x)
    ensures forall t :: LanguageFromName(t) == Some(x) ==> t == s
  {
    match x
    case En => "en"
    case Ru => "ru"
  }

  function LanguageFromName(s: string): Option<Language>
  {
    if s == "en" then Some(En)
    else if s == "ru" then Some(Ru)
    else None
  }

  function ThemeName(x: Theme): (s: string)
    ensures ThemeFromName(s) == Some(x)
    ensures forall t :: ThemeFromName(t) == Some(x) ==> t == s
  {
    match x
    case YtDark => "yt-dark"
    case YtLight => "yt-light"
    case Auto => "auto"
  }

  function ThemeFromName(s: string): Option<Theme>
  {
    if s == "yt-dark" then Some(YtDark)
    else if s == "yt-light" then Some(YtLight)
    else if s == "auto" then Some(Auto)
    else None
  }

  function IconSetName(x: IconSet): (s: string)
    ensures IconSetFromName(s) == Some(x)
    ensures forall t :: IconSetFromName(t) == Some(x) ==> t == s
  {
    match x
    case Lucide => "lucide"
    case Material => "material"
  }

  function IconSetFromName(s: string): Option<IconSet>
  {
    if s == "lucide" then Some(Lucide)
    else if s == "material" then Some(Material)
    else None
  }

  function PositionName(x: FabPosition): (s: string)
    ensures PositionFromName(s) == Some(x)
    ensures forall t :: PositionFromName(t) == Some(x) ==> t == s
  {
    match x
    case RightBottom => "right-bottom"
    case LeftBottom => "left-bottom"
  }

  function PositionFromName(s: string): Option<FabPosition>
  {
    if s == "right-bottom" then Some(RightBottom)
    else if s == "left-bottom" then Some(LeftBottom)
    else None
  }

  function SizeName(x: FabSize): (s: string)
    ensures SizeFromName(s) == Some(x)
    ensures forall t :: SizeFromName(t) == Some(x) ==> t == s
  {
    match x
    case Small => "s"
    case Medium => "m"
    case Large => "l"
  }

  function SizeFromName(s: string): Option<FabSize>
  {
    if s == "s" then Some(Small)
    else if s == "m" then Some(Medium)
    else if s == "l" then Some(Large)
    else None
  }

  function ShapeName(x: FabShape): (s: string)
    ensures ShapeFromName(s) == Some(x)
    ensures forall t :: ShapeFromName(t) == Some(x) ==> t == s
  {
    match x
    case Circle => "circle"
    case Rounded => "rounded"
  }

  function ShapeFromName(s: string): Option<FabShape>
  {
    if s == "circle" then Some(Circle)
    else if s == "rounded" then Some(Rounded)
    else None
  }

  // Fields with a default.

  function NumberField(v: Json, lo: real, hi: real, default: real, path: string): (r: Result<real>)
    ensures v.Undefined? ==> r == Ok(default)
    ensures r.Ok? && !v.Undefined? ==> v == Num(r.value) && lo <= r.value <= hi
    ensures v.Num? && lo <= v.n <= hi ==> r == Ok(v.n)
  {
    match v
    case Undefined => Ok(default)
    case Num(n) => if lo <= n <= hi then Ok(n) else Err(path)
    case _ => Err(path)
  }

  /** A number within bounds or `null`, defaulting to `null`. */
  function NullableNumberField(v: Json, lo: real, hi: real, path: string): (r: Result<Option<real>>)
    ensures v.Undefined? || v.Null? ==> r == Ok(None)
    ensures v.Num? && lo <= v.n <= hi ==> r == Ok(Some(v.n))
    ensures r.Ok? ==> v.Undefined? || v.Null? || (v.Num? && lo <= v.n <= hi)
  {
    match v
    case Undefined => Ok(None)
    case Null => Ok(None)
    case Num(n) => if lo <= n <= hi then Ok(Some(n)) else Err(path)
    case _ => Err(path)
  }

  function BoolField(v: Json, default: bool, path: string): (r: Result<bool>)
    ensures r.Ok? <==> v.Undefined? || v.Bool?
    ensures r.Ok? ==> Given(v, r.value, Bool(r.value), default)
  {
    match v
    case Undefined => Ok(default)
    case Bool(b) => Ok(b)
    case _ => Err(path)
  }

  /** A string of at most `limit` characters, when a limit is given. */
  function StringField(v: Json, limit: Option<nat>, default: string, path: string): (r: Result<string>)
    requires limit.Some? ==> |default| <= limit.value
    ensures v.Undefined? ==> r == Ok(default)
    ensures v.Str? && (limit.None? || |v.s| <= limit.value) ==> r == Ok(v.s)
    ensures r.Ok? ==> limit.Some? ==> |r.value| <= limit.value
    ensures r.Ok? && !v.Undefined? ==> v == Str(r.value)
  {
    match v
    case Undefined => Ok(default)
    case Str(s) => if limit.None? || |s| <= limit.value then Ok(s) else Err(path)
    case _ => Err(path)
  }

  function EnumField<E>(v: Json, fromName: string -> Option<E>, default: E, path: string): (r: Result<E>)
    ensures v.Undefined? ==> r == Ok(default)
    ensures v.Str? && fromName(v.s).Some? ==> r == Ok(fromName(v.s).value)
    ensures r.Ok? && !v.Undefined? ==> v.Str? && fromName(v.s) == Some(r.value)
  {
    match v
    case Undefined => Ok(default)
    case Str(s) => if fromName(s).Some? then Ok(fromName(s).value) else Err(path)
    case _ => Err(path)
  }

  /** One of the four literal scale factors, defaulting to 1. */
  function ScaleField(v: Json, path: string): (r: Result<real>)
    ensures v.Undefined? ==> r == Ok(1.0)
    ensures v.Num? && ValidScale(v.n) ==> r == Ok(v.n)
    ensures r.Ok? ==> ValidScale(r.value)
    ensures r.Ok? && !v.Undefined? ==> v == Num(r.value)
  {
    match v
    case Undefined => Ok(1.0)
    case Num(n) => if ValidScale(n) then Ok(n) else Err(path)
    case _ => Err(path)
  }

  /** Every item is the name of an action, in order. */
  function ParseActions(items: seq<Json>): (r: Option<seq<FabAction>>)
    ensures r.Some? ==> |r.value| == |items|
    ensures r.Some? ==> forall i :: 0 <= i < |items| ==> items[i] == Str(FabActionName(r.value[i]))
    ensures r.None? ==> exists i :: 0 <= i < |items| && !(items[i].Str? && FabActionFromName(items[i].s).Some?)
  {
    if items == [] then Some([])
    else if items[0].Str? && FabActionFromName(items[0].s).Some? then
      var rest := ParseActions(items[1..]);
      if rest.Some? then Some([FabActionFromName(items[0].s).value] + rest.value)
      else
        assert forall i :: 1 <= i < |items| ==> items[i] == items[1..][i - 1];
        None
    else None
  }

  /** Every item names an action. */
  predicate AllActionNames(items: seq<Json>)
  {
    forall i :: 0 <= i < |items| ==> items[i].Str? && FabActionFromName(items[i].s).Some?
  }

  /** An array of five or six action names, defaulting to the six-button order. */
  function ButtonOrderField(v: Json, path: string): (r: Result<seq<FabAction>>)
    ensures v.Undefined? ==> r == Ok(DefaultButtonOrder)
    ensures r.Ok? <==> v.Undefined? || (v.Arr? && 5 <= |v.items| <= 6 && AllActionNames(v.items))
    ensures r.Ok? ==> ValidButtonOrder(r.value)
    ensures r.Ok? && !v.Undefined? ==> v == Arr(ActionsToJson(r.value))
  {
    match v
    case Undefined => Ok(DefaultButtonOrder)
    case Arr(items) =>
      var order := ParseActions(items);
      if order.Some? && 5 <= |items| <= 6 then
        assert items == ActionsToJson(order.value);
        Ok(order.value)
      else Err(path)
    case _ => Err(path)
  }

  // Sections. A field the section names holds the written form of its
  // parsed value; a field it leaves out takes the schema's default.

  /** One parsed field: given as its written form, or absent and the default. */
  predicate Given<T(==)>(v: Json, x: T, written: Json, default: T)
  {
    if v.Undefined? then x == default else v == written
  }

  /** The written form of a height: the number, or `null`. */
  function HeightJson(h: Option<real>): Json
  {
    if h.Some? then Num(h.value) else Null
  }

  function WindowFields(m: map<string, Json>): (r: Result<WindowSettings>)
    ensures r.Ok? ==> ValidWindow(r.value)
    ensures r.Ok? ==> var w := r.value;
      && Given(Field(m, "width"), w.width, Num(w.width), DefaultWindow.width)
      && Given(Field(m, "height"), w.height, HeightJson(w.height), DefaultWindow.height)
      && Given(Field(m, "startState"), w.startState, Str(StartStateName(w.startState)), DefaultWindow.startState)
      && Given(Field(m, "alwaysOnTop"), w.alwaysOnTop, Bool(w.alwaysOnTop), DefaultWindow.alwaysOnTop)
      && Given(Field(m, "resizable"), w.resizable, Bool(w.resizable), DefaultWindow.resizable)
      && Given(Field(m, "minWidth"), w.minWidth, Num(w.minWidth), DefaultWindow.minWidth)
      && Given(Field(m, "minHeight"), w.minHeight, Num(w.minHeight), DefaultWindow.minHeight)
  {
    var width :- NumberField(Field(m, "width"), 800.0, 3840.0, 1280.0, "window.width");
    var height :- NullableNumberField(Field(m, "height"), 600.0, 2160.0, "window.height");
    var startState :- EnumField(Field(m, "startState"), StartStateFromName, Last, "window.startState");
    var alwaysOnTop :- BoolField(Field(m, "alwaysOnTop"), false, "window.alwaysOnTop");
    var resizable :- BoolField(Field(m, "resizable"), true, "window.resizable");
    var minWidth :- NumberField(Field(m, "minWidth"), 640.0, 3840.0, 900.0, "window.minWidth");
    var minHeight :- NumberField(Field(m, "minHeight"), 480.0, 2160.0, 600.0, "window.minHeight");
    Ok(WindowSettings(width, height, startState, alwaysOnTop, resizable, minWidth, minHeight))
  }

  function UaFields(m: map<string, Json>): (r: Result<UaSettings>)
    ensures r.Ok? ==> ValidUa(r.value)
    ensures r.Ok? ==> var u := r.value;
      && Given(Field(m, "mode"), u.mode, Str(UaModeName(u.mode)), DefaultUa.mode)
      && Given(Field(m, "custom"), u.custom, Str(u.custom), DefaultUa.custom)
      && Given(Field(m, "reloadOnChange"), u.reloadOnChange, Bool(u.reloadOnChange), DefaultUa.reloadOnChange)
  {
    var mode :- EnumField(Field(m, "mode"), UaModeFromName, UaDefault, "ua.mode");
    var custom :- StringField(Field(m, "custom"), Some(MaxUaCustomLength), "", "ua.custom");
    var reloadOnChange :- BoolField(Field(m, "reloadOnChange"), true, "ua.reloadOnChange");
    Ok(UaSettings(mode, custom, reloadOnChange))
  }

  function DpiFields(m: map<string, Json>): (r: Result<DpiSettings>)
    ensures r.Ok? ==> ValidDpi(r.value)
    ensures r.Ok? ==> var d := r.value;
      && Given(Field(m, "mode"), d.mode, Str(DpiModeName(d.mode)), DefaultDpi.mode)
      && Given(Field(m, "port"), d.port, Num(d.port), DefaultDpi.port)
      && Given(Field(m, "bypass"), d.bypass, Str(d.bypass), DefaultDpi.bypass)
      && Given(Field(m, "autoStart"), d.autoStart, Bool(d.autoStart), DefaultDpi.autoStart)
  {
    var mode :- EnumField(Field(m, "mode"), DpiModeFromName, Demergi, "dpi.mode");
    var port :- NumberField(Field(m, "port"), 1.0, 65535.0, 8080.0, "dpi.port");
    var bypass :- StringField(Field(m, "bypass"), None, "", "dpi.bypass");
    var autoStart :- BoolField(Field(m, "autoStart"), true, "dpi.autoStart");
    Ok(DpiSettings(mode, port, bypass, autoStart))
  }

  function AdblockFields(m: map<string, Json>): (r: Result<AdblockSettings>)
    ensures r.Ok? ==> var a := r.value;
      && Given(Field(m, "enabled"), a.enabled, Bool(a.enabled), DefaultAdblock.enabled)
      && Given(Field(m, "strength"), a.strength, Str(StrengthName(a.strength)), DefaultAdblock.strength)
      && Given(Field(m, "cosmetics"), a.cosmetics, Bool(a.cosmetics), DefaultAdblock.cosmetics)
  {
    var enabled :- BoolField(Field(m, "enabled"), true, "adblock.enabled");
    var strength :- EnumField(Field(m, "strength"), StrengthFromName, Full, "adblock.strength");
    var cosmetics :- BoolField(Field(m, "cosmetics"), true, "adblock.cosmetics");
    Ok(AdblockSettings(enabled, strength, cosmetics))
  }

  function UiFields(m: map<string, Json>): (r: Result<UiSettings>)
    ensures r.Ok? ==> ValidUi(r.value)
    ensures r.Ok? ==> var u := r.value;
      && Given(Field(m, "language"), u.language, Str(LanguageName(u.language)), DefaultUi.language)
      && Given(Field(m, "theme"), u.theme, Str(ThemeName(u.theme)), DefaultUi.theme)
      && Given(Field(m, "scale"), u.scale, Num(u.scale), DefaultUi.scale)
      && Given(Field(m, "backdropOpacity"), u.backdropOpacity, Num(u.backdropOpacity), DefaultUi.backdropOpacity)
      && Given(Field(m, "animations"), u.animations, Bool(u.animations), DefaultUi.animations)
      && Given(Field(m, "hotkeys"), u.hotkeys, Bool(u.hotkeys), DefaultUi.hotkeys)
      && Given(Field(m, "autoCloseOnNav"), u.autoCloseOnNav, Bool(u.autoCloseOnNav), DefaultUi.autoCloseOnNav)
      && Given(Field(m, "closeOnEsc"), u.closeOnEsc, Bool(u.closeOnEsc), DefaultUi.closeOnEsc)
      && Given(Field(m, "closeOnOutside"), u.closeOnOutside, Bool(u.closeOnOutside), DefaultUi.closeOnOutside)
      && Given(Field(m, "iconSet"), u.iconSet, Str(IconSetName(u.iconSet)), DefaultUi.iconSet)
  {
    var language :- EnumField(Field(m, "language"), LanguageFromName, En, "ui.language");
    var theme :- EnumField(Field(m, "theme"), ThemeFromName, YtDark, "ui.theme");
    var scale :- ScaleField(Field(m, "scale"), "ui.scale");
    var backdropOpacity :- NumberField(Field(m, "backdropOpacity"), 0.0, 0.4, 0.2, "ui.backdropOpacity");
    var animations :- BoolField(Field(m, "animations"), true, "ui.animations");
    var hotkeys :- BoolField(Field(m, "hotkeys"), true, "ui.hotkeys");
    var autoCloseOnNav :- BoolField(Field(m, "autoCloseOnNav"), true, "ui.autoCloseOnNav");
    var closeOnEsc :- BoolField(Field(m, "closeOnEsc"), true, "ui.closeOnEsc");
    var closeOnOutside :- BoolField(Field(m, "closeOnOutside"), true, "ui.closeOnOutside");
    var iconSet :- EnumField(Field(m, "iconSet"), IconSetFromName, Lucide, "ui.iconSet");
    Ok(UiSettings(language, theme, scale, backdropOpacity, animations, hotkeys,
                  autoCloseOnNav, closeOnEsc, closeOnOutside, iconSet))
  }

  function FabFields(m: map<string, Json>): (r: Result<FabSettings>)
    ensures r.Ok? ==> ValidFab(r.value)
    ensures r.Ok? ==> var f := r.value;
      && Given(Field(m, "position"), f.position, Str(PositionName(f.position)), DefaultFab.position)
      && Given(Field(m, "padding"), f.padding, Num(f.padding), DefaultFab.padding)
      && Given(Field(m, "size"), f.size, Str(SizeName(f.size)), DefaultFab.size)
      && Given(Field(m, "shape"), f.shape, Str(ShapeName(f.shape)), DefaultFab.shape)
      && Given(Field(m, "opacity"), f.opacity, Num(f.opacity), DefaultFab.opacity)
      && Given(Field(m, "hoverOpen"), f.hoverOpen, Bool(f.hoverOpen), DefaultFab.hoverOpen)
      && Given(Field(m, "closeOnVideoClick"), f.closeOnVideoClick, Bool(f.closeOnVideoClick), DefaultFab.closeOnVideoClick)
      && Given(Field(m, "tooltips"), f.tooltips, Bool(f.tooltips), DefaultFab.tooltips)
      && Given(Field(m, "buttonOrder"), f.buttonOrder, Arr(ActionsToJson(f.buttonOrder)), DefaultFab.buttonOrder)
  {
    var position :- EnumField(Field(m, "position"), PositionFromName, RightBottom, "fab.position");
    var padding :- NumberField(Field(m, "padding"), 8.0, 32.0, 24.0, "fab.padding");
    var size :- EnumField(Field(m, "size"), SizeFromName, Medium, "fab.size");
    var shape :- EnumField(Field(m, "shape"), ShapeFromName, Circle, "fab.shape");
    var opacity :- NumberField(Field(m, "opacity"), 0.6, 1.0, 1.0, "fab.opacity");
    var hoverOpen :- BoolField(Field(m, "hoverOpen"), false, "fab.hoverOpen");
    var closeOnVideoClick :- BoolField(Field(m, "closeOnVideoClick"), true, "fab.closeOnVideoClick");
    var tooltips :- BoolField(Field(m, "tooltips"), true, "fab.tooltips");
    var buttonOrder :- ButtonOrderField(Field(m, "buttonOrder"), "fab.buttonOrder");
    Ok(FabSettings(position, padding, size, shape, opacity, hoverOpen, closeOnVideoClick, tooltips, buttonOrder))
  }

  /** An optional section: absent stays absent, an object is parsed, anything else (`null` included) is rejected. */
  function Section<T>(v: Json, fields: map<string, Json> -> Result<T>, path: string): (r: Result<Option<T>>)
    ensures v.Undefined? ==> r == Ok(None)
    ensures v.Obj? && fields(v.fields).Ok? ==> r == Ok(Some(fields(v.fields).value))
    ensures r.Ok? <==> v.Undefined? || (v.Obj? && fields(v.fields).Ok?)
  {
    match v
    case Undefined => Ok(None)
    case Obj(m) =>
      var section :- fields(m);
      Ok(Some(section))
    case _ => Err(path)
  }

  /** `version` is the literal 1, defaulting to 1. */
  function VersionField(v: Json): (r: Result<int>)
    ensures r.Ok? ==> r.value == 1
    ensures r.Ok? <==> v == Undefined || v == Num(1.0)
  {
    if v == Undefined || v == Num(1.0) then Ok(1) else Err("version")
  }

  /** `settingsSchema.parse`: whatever it accepts satisfies the schema's bounds. */
  function Parse(doc: Json): (r: Result<Settings>)
    ensures r.Ok? ==> ValidSettings(r.value)
  {
    match doc
    case Obj(m) =>
      var version :- VersionField(Field(m, "version"));
      var window :- Section(Field(m, "window"), WindowFields, "window");
      var ua :- Section(Field(m, "ua"), UaFields, "ua");
      var dpi :- Section(Field(m, "dpi"), DpiFields, "dpi");
      var adblock :- Section(Field(m, "adblock"), AdblockFields, "adblock");
      var ui :- Section(Field(m, "ui"), UiFields, "ui");
      var fab :- Section(Field(m, "fab"), FabFields, "fab");
      Ok(Settings(version, window, ua, dpi, adblock, ui, fab))
    case _ => Err("settings")
  }

  // Encoding (the object serialised to disk).

  function WindowToJson(w: WindowSettings): map<string, Json>
  {
    map[
      "width" := Num(w.width),
      "height" := HeightJson(w.height),
      "startState" := Str(StartStateName(w.startState)),
      "alwaysOnTop" := Bool(w.alwaysOnTop),
      "resizable" := Bool(w.resizable),
      "minWidth" := Num(w.minWidth),
      "minHeight" := Num(w.minHeight)]
  }

  function UaToJson(u: UaSettings): map<string, Json>
  {
    map["mode" := Str(UaModeName(u.mode)), "custom" := Str(u.custom), "reloadOnChange" := Bool(u.reloadOnChange)]
  }

  function DpiToJson(d: DpiSettings): map<string, Json>
  {
    map[
      "mode" := Str(DpiModeName(d.mode)),
      "port" := Num(d.port),
      "bypass" := Str(d.bypass),
      "autoStart" := Bool(d.autoStart)]
  }

  function AdblockToJson(a: AdblockSettings): map<string, Json>
  {
    map["enabled" := Bool(a.enabled), "strength" := Str(StrengthName(a.strength)), "cosmetics" := Bool(a.cosmetics)]
  }

  function UiToJson(u: UiSettings): map<string, Json>
  {
    map[
      "language" := Str(LanguageName(u.language)),
      "theme" := Str(ThemeName(u.theme)),
      "scale" := Num(u.scale),
      "backdropOpacity" := Num(u.backdropOpacity),
      "animations" := Bool(u.animations),
      "hotkeys" := Bool(u.hotkeys),
      "autoCloseOnNav" := Bool(u.autoCloseOnNav),
      "closeOnEsc" := Bool(u.closeOnEsc),
      "closeOnOutside" := Bool(u.closeOnOutside),
      "iconSet" := Str(IconSetName(u.iconSet))]
  }

  function ActionsToJson(order: seq<FabAction>): (r: seq<Json>)
    ensures |r| == |order|
    ensures forall i :: 0 <= i < |order| ==> r[i] == Str(FabActionName(order[i]))
  {
    seq(|order|, i requires 0 <= i < |order| => Str(FabActionName(order[i])))
  }

  function FabToJson(f: FabSettings): map<string, Json>
  {
    map[
      "position" := Str(PositionName(f.position)),
      "padding" := Num(f.padding),
      "size" := Str(SizeName(f.size)),
      "shape" := Str(ShapeName(f.shape)),
      "opacity" := Num(f.opacity),
      "hoverOpen" := Bool(f.hoverOpen),
      "closeOnVideoClick" := Bool(f.closeOnVideoClick),
      "tooltips" := Bool(f.tooltips),
      "buttonOrder" := Arr(ActionsToJson(f.buttonOrder))]
  }

  /** The object form of a schema value; absent sections are absent keys. */
  function SettingsToJson(s: Settings): map<string, Json>
  {
    var m := map["version" := Num(s.version as real)];
    var m := if s.window.Some? then m["window" := Obj(WindowToJson(s.window.value))] else m;
    var m := if s.ua.Some? then m["ua" := Obj(UaToJson(s.ua.value))] else m;
    var m := if s.dpi.Some? then m["dpi" := Obj(DpiToJson(s.dpi.value))] else m;
    var m := if s.adblock.Some? then m["adblock" := Obj(AdblockToJson(s.adblock.value))] else m;
    var m := if s.ui.Some? then m["ui" := Obj(UiToJson(s.ui.value))] else m;
    if s.fab.Some? then m["fab" := Obj(FabToJson(s.fab.value))] else m
  }

  function NormalizedToJson(n: Normalized): map<string, Json>
  {
    SettingsToJson(Widen(n))
  }

  // What is written can be read back.

  lemma {:induction false} ActionsRoundTrip(order: seq<FabAction>)
    ensures ParseActions(ActionsToJson(order)) == Some(order)
  {
    var items := ActionsToJson(order);
    if order != [] {
      ActionsRoundTrip(order[1..]);
      assert items[1..] == ActionsToJson(order[1..]);
      assert items[0] == Str(FabActionName(order[0]));
      assert [order[0]] + order[1..] == order;
    }
  }

  lemma WindowRoundTrip(w: WindowSettings)
    requires ValidWindow(w)
    ensures WindowFields(WindowToJson(w)) == Ok(w)
  {
  }

  lemma UaRoundTrip(u: UaSettings)
    requires ValidUa(u)
    ensures UaFields(UaToJson(u)) == Ok(u)
  {
  }

  lemma DpiRoundTrip(d: DpiSettings)
    requires ValidDpi(d)
    ensures DpiFields(DpiToJson(d)) == Ok(d)
  {
  }

  lemma AdblockRoundTrip(a: AdblockSettings)
    ensures AdblockFields(AdblockToJson(a)) == Ok(a)
  {
  }

  /** The keys of a window section's object form. */
  lemma WindowToJsonAt(w: WindowSettings)
    ensures var m := WindowToJson(w);
      && Field(m, "width") == Num(w.width)
      && Field(m, "height") == HeightJson(w.height)
      && Field(m, "startState") == Str(StartStateName(w.startState))
      && Field(m, "alwaysOnTop") == Bool(w.alwaysOnTop)
      && Field(m, "resizable") == Bool(w.resizable)
      && Field(m, "minWidth") == Num(w.minWidth)
      && Field(m, "minHeight") == Num(w.minHeight)
  {
  }

  /** The keys of a user-agent section's object form. */
  lemma UaToJsonAt(u: UaSettings)
    ensures var m := UaToJson(u);
      && Field(m, "mode") == Str(UaModeName(u.mode))
      && Field(m, "custom") == Str(u.custom)
      && Field(m, "reloadOnChange") == Bool(u.reloadOnChange)
  {
  }

  /** The keys of a proxy section's object form. */
  lemma DpiToJsonAt(d: DpiSettings)
    ensures var m := DpiToJson(d);
      && Field(m, "mode") == Str(DpiModeName(d.mode))
      && Field(m, "port") == Num(d.port)
      && Field(m, "bypass") == Str(d.bypass)
      && Field(m, "autoStart") == Bool(d.autoStart)
  {
  }

  /** The keys of an adblock section's object form. */
  lemma AdblockToJsonAt(a: AdblockSettings)
    ensures var m := AdblockToJson(a);
      && Field(m, "enabled") == Bool(a.enabled)
      && Field(m, "strength") == Str(StrengthName(a.strength))
      && Field(m, "cosmetics") == Bool(a.cosmetics)
  {
  }

  /** The keys of an interface section's object form. */
  lemma UiToJsonAt(u: UiSettings)
    ensures var m := UiToJson(u);
      && Field(m, "language") == Str(LanguageName(u.language))
      && Field(m, "theme") == Str(ThemeName(u.theme))
      && Field(m, "scale") == Num(u.scale)
      && Field(m, "backdropOpacity") == Num(u.backdropOpacity)
      && Field(m, "animations") == Bool(u.animations)
      && Field(m, "hotkeys") == Bool(u.hotkeys)
      && Field(m, "autoCloseOnNav") == Bool(u.autoCloseOnNav)
      && Field(m, "closeOnEsc") == Bool(u.closeOnEsc)
      && Field(m, "closeOnOutside") == Bool(u.closeOnOutside)
      && Field(m, "iconSet") == Str(IconSetName(u.iconSet))
  {
  }

  /** An object holding the written fields of a valid interface section parses to it. */
  lemma UiFieldsOf(m: map<string, Json>, u: UiSettings)
    requires ValidUi(u)
    requires Field(m, "language") == Str(LanguageName(u.language))
    requires Field(m, "theme") == Str(ThemeName(u.theme))
    requires Field(m, "scale") == Num(u.scale)
    requires Field(m, "backdropOpacity") == Num(u.backdropOpacity)
    requires Field(m, "animations") == Bool(u.animations)
    requires Field(m, "hotkeys") == Bool(u.hotkeys)
    requires Field(m, "autoCloseOnNav") == Bool(u.autoCloseOnNav)
    requires Field(m, "closeOnEsc") == Bool(u.closeOnEsc)
    requires Field(m, "closeOnOutside") == Bool(u.closeOnOutside)
    requires Field(m, "iconSet") == Str(IconSetName(u.iconSet))
    ensures UiFields(m) == Ok(u)
  {
  }

  lemma UiRoundTrip(u: UiSettings)
    requires ValidUi(u)
    ensures UiFields(UiToJson(u)) == Ok(u)
  {
    UiToJsonAt(u);
    UiFieldsOf(UiToJson(u), u);
  }

  /** The keys of a floating-button section's object form. */
  lemma FabToJsonAt(f: FabSettings)
    ensures var m := FabToJson(f);
      && Field(m, "position") == Str(PositionName(f.position))
      && Field(m, "padding") == Num(f.padding)
      && Field(m, "size") == Str(SizeName(f.size))
      && Field(m, "shape") == Str(ShapeName(f.shape))
      && Field(m, "opacity") == Num(f.opacity)
      && Field(m, "hoverOpen") == Bool(f.hoverOpen)
      && Field(m, "closeOnVideoClick") == Bool(f.closeOnVideoClick)
      && Field(m, "tooltips") == Bool(f.tooltips)
      && Field(m, "buttonOrder") == Arr(ActionsToJson(f.buttonOrder))
  {
  }

  /** An object holding the written fields of a valid floating-button section parses to it. */
  lemma FabFieldsOf(m: map<string, Json>, f: FabSettings)
    requires ValidFab(f)
    requires Field(m, "position") == Str(PositionName(f.position))
    requires Field(m, "padding") == Num(f.padding)
    requires Field(m, "size") == Str(SizeName(f.size))
    requires Field(m, "shape") == Str(ShapeName(f.shape))
    requires Field(m, "opacity") == Num(f.opacity)
    requires Field(m, "hoverOpen") == Bool(f.hoverOpen)
    requires Field(m, "closeOnVideoClick") == Bool(f.closeOnVideoClick)
    requires Field(m, "tooltips") == Bool(f.tooltips)
    requires Field(m, "buttonOrder") == Arr(ActionsToJson(f.buttonOrder))
    ensures FabFields(m) == Ok(f)
  {
    ActionsRoundTrip(f.buttonOrder);
  }

  lemma FabRoundTrip(f: FabSettings)
    requires ValidFab(f)
    ensures FabFields(FabToJson(f)) == Ok(f)
  {
    FabToJsonAt(f);
    FabFieldsOf(FabToJson(f), f);
  }

  /**
   * Every value satisfying the schema is what the parser yields for its
   * object form; with the soundness of `Parse` this makes `ValidSettings`
   * exactly the set of parser outputs.
   */
  lemma SettingsRoundTrip(s: Settings)
    requires ValidSettings(s)
    ensures Parse(Obj(SettingsToJson(s))) == Ok(s)
  {
    SettingsToJsonFields(s);
    ParseOfWritten(SettingsToJson(s), s);
  }

  /** An object holding version 1 and the object forms of a valid value's sections parses to that value. */
  lemma ParseOfWritten(m: map<string, Json>, s: Settings)
    requires ValidSettings(s)
    requires Field(m, "version") == Num(1.0)
    requires Field(m, "window") == if s.window.Some? then Obj(WindowToJson(s.window.value)) else Undefined
    requires Field(m, "ua") == if s.ua.Some? then Obj(UaToJson(s.ua.value)) else Undefined
    requires Field(m, "dpi") == if s.dpi.Some? then Obj(DpiToJson(s.dpi.value)) else Undefined
    requires Field(m, "adblock") == if s.adblock.Some? then Obj(AdblockToJson(s.adblock.value)) else Undefined
    requires Field(m, "ui") == if s.ui.Some? then Obj(UiToJson(s.ui.value)) else Undefined
    requires Field(m, "fab") == if s.fab.Some? then Obj(FabToJson(s.fab.value)) else Undefined
    ensures Parse(Obj(m)) == Ok(s)
  {
    WindowSectionOf(Field(m, "window"), s.window);
    UaSectionOf(Field(m, "ua"), s.ua);
    DpiSectionOf(Field(m, "dpi"), s.dpi);
    AdblockSectionOf(Field(m, "adblock"), s.adblock);
    UiSectionOf(Field(m, "ui"), s.ui);
    FabSectionOf(Field(m, "fab"), s.fab);
    ParseOfSections(m, s);
  }

  // A section holding the object form of a valid value, or absent, parses to it.

  lemma WindowSectionOf(v: Json, x: Option<WindowSettings>)
    requires x.Some? ==> ValidWindow(x.value)
    requires v == if x.Some? then Obj(WindowToJson(x.value)) else Undefined
    ensures Section(v, WindowFields, "window") == Ok(x)
  {
    if x.Some? { WindowRoundTrip(x.value); }
  }

  lemma UaSectionOf(v: Json, x: Option<UaSettings>)
    requires x.Some? ==> ValidUa(x.value)
    requires v == if x.Some? then Obj(UaToJson(x.value)) else Undefined
    ensures Section(v, UaFields, "ua") == Ok(x)
  {
    if x.Some? { UaRoundTrip(x.value); }
  }

  lemma DpiSectionOf(v: Json, x: Option<DpiSettings>)
    requires x.Some? ==> ValidDpi(x.value)
    requires v == if x.Some? then Obj(DpiToJson(x.value)) else Undefined
    ensures Section(v, DpiFields, "dpi") == Ok(x)
  {
    if x.Some? { DpiRoundTrip(x.value); }
  }

  lemma AdblockSectionOf(v: Json, x: Option<AdblockSettings>)
    requires v == if x.Some? then Obj(AdblockToJson(x.value)) else Undefined
    ensures Section(v, AdblockFields, "adblock") == Ok(x)
  {
    if x.Some? { AdblockRoundTrip(x.value); }
  }

  lemma UiSectionOf(v: Json, x: Option<UiSettings>)
    requires x.Some? ==> ValidUi(x.value)
    requires v == if x.Some? then Obj(UiToJson(x.value)) else Undefined
    ensures Section(v, UiFields, "ui") == Ok(x)
  {
    if x.Some? { UiRoundTrip(x.value); }
  }

  lemma FabSectionOf(v: Json, x: Option<FabSettings>)
    requires x.Some? ==> ValidFab(x.value)
    requires v == if x.Some? then Obj(FabToJson(x.value)) else Undefined
    ensures Section(v, FabFields, "fab") == Ok(x)
  {
    if x.Some? { FabRoundTrip(x.value); }
  }

  /** Where each key of the object form comes from. */
  lemma SettingsToJsonFields(s: Settings)
    ensures Field(SettingsToJson(s), "version") == Num(s.version as real)
    ensures Field(SettingsToJson(s), "window") == if s.window.Some? then Obj(WindowToJson(s.window.value)) else Undefined
    ensures Field(SettingsToJson(s), "ua") == if s.ua.Some? then Obj(UaToJson(s.ua.value)) else Undefined
    ensures Field(SettingsToJson(s), "dpi") == if s.dpi.Some? then Obj(DpiToJson(s.dpi.value)) else Undefined
    ensures Field(SettingsToJson(s), "adblock") == if s.adblock.Some? then Obj(AdblockToJson(s.adblock.value)) else Undefined
    ensures Field(SettingsToJson(s), "ui") == if s.ui.Some? then Obj(UiToJson(s.ui.value)) else Undefined
    ensures Field(SettingsToJson(s), "fab") == if s.fab.Some? then Obj(FabToJson(s.fab.value)) else Undefined
  {
  }

  /** The object form has no keys besides the version and the six sections. */
  lemma SettingsToJsonKeys(s: Settings)
    ensures SettingsToJson(s).Keys <= {"version", "window", "ua", "dpi", "adblock", "ui", "fab"}
  {
  }

  /** `Parse` succeeds with `s` on an object whose version and six sections parse to those of `s`. */
  lemma ParseOfSections(m: map<string, Json>, s: Settings)
    requires s.version == 1 && VersionField(Field(m, "version")) == Ok(1)
    requires Section(Field(m, "window"), WindowFields, "window") == Ok(s.window)
    requires Section(Field(m, "ua"), UaFields, "ua") == Ok(s.ua)
    requires Section(Field(m, "dpi"), DpiFields, "dpi") == Ok(s.dpi)
    requires Section(Field(m, "adblock"), AdblockFields, "adblock") == Ok(s.adblock)
    requires Section(Field(m, "ui"), UiFields, "ui") == Ok(s.ui)
    requires Section(Field(m, "fab"), FabFields, "fab") == Ok(s.fab)
    ensures Parse(Obj(m)) == Ok(s)
  {
  }

  /** `defaultSettings` is the parse of six empty sections. */
  lemma DefaultsFromSchema()
    ensures Parse(Obj(map[
      "window" := Obj(map[]), "ua" := Obj(map[]), "dpi" := Obj(map[]),
      "adblock" := Obj(map[]), "ui" := Obj(map[]), "fab" := Obj(map[])])) == Ok(DefaultSettings)
  {
    var m := map[
      "window" := Obj(map[]), "ua" := Obj(map[]), "dpi" := Obj(map[]),
      "adblock" := Obj(map[]), "ui" := Obj(map[]), "fab" := Obj(map[])];
    EmptySectionsDefault();
    ParseOfSections(m, DefaultSettings);
  }

  /** An empty section takes every default. */
  lemma EmptySectionsDefault()
    ensures WindowFields(map[]) == Ok(DefaultWindow)
    ensures UaFields(map[]) == Ok(DefaultUa)
    ensures DpiFields(map[]) == Ok(DefaultDpi)
    ensures AdblockFields(map[]) == Ok(DefaultAdblock)
    ensures UiFields(map[]) == Ok(DefaultUi)
    ensures FabFields(map[]) == Ok(DefaultFab)
  {
  }

  /** A window width outside 800..3840 rejects the whole document. */
  lemma WidthOutOfBoundsRejected(m: map<string, Json>, width: real)
    requires "window" in m && m["window"].Obj?
    requires Field(m["window"].fields, "width") == Num(width)
    requires width < MinWindowWidth || MaxWindowWidth < width
    ensures Parse(Obj(m)).Err?
  {
  }

  /** A proxy port outside 1..65535 rejects the whole document. */
  lemma PortOutOfBoundsRejected(m: map<string, Json>, port: real)
    requires "dpi" in m && m["dpi"].Obj?
    requires Field(m["dpi"].fields, "port") == Num(port)
    requires port < MinPort || MaxPort < port
    ensures Parse(Obj(m)).Err?
  {
  }

  /** A button order with fewer than five or more than six entries rejects the whole document. */
  lemma ButtonOrderLengthRejected(m: map<string, Json>, items: seq<Json>)
    requires "fab" in m && m["fab"].Obj?
    requires Field(m["fab"].fields, "buttonOrder") == Arr(items)
    requires |items| < 5 || 6 < |items|
    ensures Parse(Obj(m)).Err?
  {
  }

  /** A version other than the literal 1 rejects the whole document; an absent one is read as 1. */
  lemma VersionChecked(m: map<string, Json>)
    ensures Field(m, "version") != Undefined && Field(m, "version") != Num(1.0) ==> Parse(Obj(m)).Err?
    ensures Parse(Obj(m)).Ok? ==> Parse(Obj(m)).value.version == 1
  {
  }

  /** What a successful parse says about each section of the input object. */
  lemma ParseYieldsSections(m: map<string, Json>, s: Settings)
    requires Parse(Obj(m)) == Ok(s)
    ensures Section(Field(m, "window"), WindowFields, "window") == Ok(s.window)
    ensures Section(Field(m, "ua"), UaFields, "ua") == Ok(s.ua)
    ensures Section(Field(m, "dpi"), DpiFields, "dpi") == Ok(s.dpi)
    ensures Section(Field(m, "adblock"), AdblockFields, "adblock") == Ok(s.adblock)
    ensures Section(Field(m, "ui"), UiFields, "ui") == Ok(s.ui)
    ensures Section(Field(m, "fab"), FabFields, "fab") == Ok(s.fab)
  {
  }

  /** A full section's object form names the same keys whatever the values, and holds only leaves. */
  lemma SectionFormsCover(a: Normalized, b: Normalized)
    ensures Covers(WindowToJson(a.window), WindowToJson(b.window))
    ensures Covers(UaToJson(a.ua), UaToJson(b.ua))
    ensures Covers(DpiToJson(a.dpi), DpiToJson(b.dpi))
    ensures Covers(AdblockToJson(a.adblock), AdblockToJson(b.adblock))
    ensures Covers(UiToJson(a.ui), UiToJson(b.ui))
    ensures Covers(FabToJson(a.fab), FabToJson(b.fab))
  {
    WindowFormCovers(a.window, b.window);
    UaFormCovers(a.ua, b.ua);
    DpiFormCovers(a.dpi, b.dpi);
    AdblockFormCovers(a.adblock, b.adblock);
    UiFormCovers(a.ui, b.ui);
    FabFormCovers(a.fab, b.fab);
  }

  lemma WindowFormCovers(a: WindowSettings, b: WindowSettings)
    ensures Covers(WindowToJson(a), WindowToJson(b))
  {
    var ta, tb := WindowToJson(a), WindowToJson(b);
    forall k | k in ta
      ensures k in tb
    {
    }
    forall k | k in tb
      ensures IsLeaf(tb[k])
    {
    }
    LeavesCover(ta, tb);
  }

  lemma UaFormCovers(a: UaSettings, b: UaSettings)
    ensures Covers(UaToJson(a), UaToJson(b))
  {
    var ta, tb := UaToJson(a), UaToJson(b);
    forall k | k in ta
      ensures k in tb
    {
    }
    forall k | k in tb
      ensures IsLeaf(tb[k])
    {
    }
    LeavesCover(ta, tb);
  }

  lemma DpiFormCovers(a: DpiSettings, b: DpiSettings)
    ensures Covers(DpiToJson(a), DpiToJson(b))
  {
    var ta, tb := DpiToJson(a), DpiToJson(b);
    forall k | k in ta
      ensures k in tb
    {
    }
    forall k | k in tb
      ensures IsLeaf(tb[k])
    {
    }
    LeavesCover(ta, tb);
  }

  lemma AdblockFormCovers(a: AdblockSettings, b: AdblockSettings)
    ensures Covers(AdblockToJson(a), AdblockToJson(b))
  {
    var ta, tb := AdblockToJson(a), AdblockToJson(b);
    forall k | k in ta
      ensures k in tb
    {
    }
    forall k | k in tb
      ensures IsLeaf(tb[k])
    {
    }
    LeavesCover(ta, tb);
  }

  lemma UiFormCovers(a: UiSettings, b: UiSettings)
    ensures Covers(UiToJson(a), UiToJson(b))
  {
    var ta, tb := UiToJson(a), UiToJson(b);
    forall k | k in ta
      ensures k in tb
    {
    }
    forall k | k in tb
      ensures IsLeaf(tb[k])
    {
    }
    LeavesCover(ta, tb);
  }

  lemma FabFormCovers(a: FabSettings, b: FabSettings)
    ensures Covers(FabToJson(a), FabToJson(b))
  {
    var ta, tb := FabToJson(a), FabToJson(b);
    forall k | k in ta
      ensures k in tb
    {
    }
    forall k | k in tb
      ensures IsLeaf(tb[k])
    {
    }
    LeavesCover(ta, tb);
  }

  // A section that holds the object form of a valid value parses to that value.

  lemma ParsedWindow(m: map<string, Json>, s: Settings, x: WindowSettings)
    requires Parse(Obj(m)) == Ok(s)
    requires Field(m, "window") == Obj(WindowToJson(x))
    requires ValidWindow(x)
    ensures s.window == Some(x)
  {
    ParseYieldsSections(m, s);
    WindowRoundTrip(x);
  }

  lemma ParsedUa(m: map<string, Json>, s: Settings, x: UaSettings)
    requires Parse(Obj(m)) == Ok(s)
    requires Field(m, "ua") == Obj(UaToJson(x))
    requires ValidUa(x)
    ensures s.ua == Some(x)
  {
    ParseYieldsSections(m, s);
    UaRoundTrip(x);
  }

  lemma ParsedDpi(m: map<string, Json>, s: Settings, x: DpiSettings)
    requires Parse(Obj(m)) == Ok(s)
    requires Field(m, "dpi") == Obj(DpiToJson(x))
    requires ValidDpi(x)
    ensures s.dpi == Some(x)
  {
    ParseYieldsSections(m, s);
    DpiRoundTrip(x);
  }

  lemma ParsedAdblock(m: map<string, Json>, s: Settings, x: AdblockSettings)
    requires Parse(Obj(m)) == Ok(s)
    requires Field(m, "adblock") == Obj(AdblockToJson(x))
    ensures s.adblock == Some(x)
  {
    ParseYieldsSections(m, s);
    AdblockRoundTrip(x);
  }

  lemma ParsedUi(m: map<string, Json>, s: Settings, x: UiSettings)
    requires Parse(Obj(m)) == Ok(s)
    requires Field(m, "ui") == Obj(UiToJson(x))
    requires ValidUi(x)
    ensures s.ui == Some(x)
  {
    ParseYieldsSections(m, s);
    UiRoundTrip(x);
  }

  lemma ParsedFab(m: map<string, Json>, s: Settings, x: FabSettings)
    requires Parse(Obj(m)) == Ok(s)
    requires Field(m, "fab") == Obj(FabToJson(x))
    requires ValidFab(x)
    ensures s.fab == Some(x)
  {
    ParseYieldsSections(m, s);
    FabRoundTrip(x);
  }

  /** An object holding version 1 and the object forms of a valid snapshot's sections parses to that snapshot. */
  lemma ParseOfForms(m: map<string, Json>, n: Normalized)
    requires ValidNormalized(n)
    requires Field(m, "version") == Num(1.0)
    requires Field(m, "window") == Obj(WindowToJson(n.window))
    requires Field(m, "ua") == Obj(UaToJson(n.ua))
    requires Field(m, "dpi") == Obj(DpiToJson(n.dpi))
    requires Field(m, "adblock") == Obj(AdblockToJson(n.adblock))
    requires Field(m, "ui") == Obj(UiToJson(n.ui))
    requires Field(m, "fab") == Obj(FabToJson(n.fab))
    ensures Parse(Obj(m)) == Ok(Widen(n))
  {
    ParseOfWritten(m, Widen(n));
  }

  /** Setting the port in the object form of a proxy section is setting it in the section. */
  lemma DpiFormWithPort(d: DpiSettings, port: real)
    ensures DpiToJson(d)["port" := Num(port)] == DpiToJson(d.(port := port))
  {
  }
}
