/**
 * What the main process asks of the window, the two browser sessions and
 * the command line once a snapshot is known. Every such call becomes an
 * entry in a returned list of effects, in the order it is issued.
 */
module SessionEffects {
  import opened Wrappers
  import opened SettingsSchema
  import opened DpiManager

  /** A window's position and size, as `getBounds` reports it. */
  datatype Bounds = Bounds(x: real, y: real, width: real, height: real)

  /** The default session, and the persistent partition the YouTube view lives in. */
  datatype SessionId = DefaultSession | YouTubeSession

  /** `{ mode: 'direct' }`, or the rules `http://127.0.0.1:<port>` with a bypass list. */
  datatype ProxyConfig = Direct | LocalProxy(port: real, bypassRules: string)

  datatype Effect =
    | SetResizable(resizable: bool)
    | SetMinimumSize(minWidth: real, minHeight: real)
    | SetAlwaysOnTop(onTop: bool)
    | SetBounds(bounds: Bounds)
    | Maximize
    | Unmaximize
    | SetUserAgent(session: SessionId, userAgent: string)
    | ClearCache(session: SessionId)
    | ReloadIgnoringCache
    | SetProxy(session: SessionId, config: ProxyConfig)
    /** The `proxy-server` command-line switch, `http://127.0.0.1:<port>`. */
    | AppendProxyServer(port: real)
    /** The `proxy-bypass-list` command-line switch. */
    | AppendProxyBypassList(rules: string)

  // Window geometry

  /** The height `applyWindowSettings` gives the window: a stored non-zero height clamped, otherwise the current one. */
  function WindowHeight(current: real, w: WindowSettings): real
  {
    // a stored height of 0 counts as none
    if w.height.Some? && w.height.value != 0.0 then Clamp(w.height.value, w.minHeight, MaxWindowHeight) else current
  }

  /** What the start state asks of the window after its bounds are set. */
  function StartStateEffects(state: StartState): seq<Effect>
  {
    match state
    case Maximized => [Maximize]
    case Normal => [Unmaximize]
    case Last => []
  }

  /**
   * The effects of `applyWindowSettings` on a window whose bounds are
   * `win`: resizability, minimum size and always-on-top, then the bounds
   * with the width (and the height, when one is stored) clamped between
   * the minimum and the largest screen size, then the start state.
   * Without a window nothing happens.
   */
  function WindowPlan(win: Option<Bounds>, w: WindowSettings): seq<Effect>
  {
    if win.None? then []
    else
      var bounds := win.value.(width := Clamp(w.width, w.minWidth, MaxWindowWidth), height := WindowHeight(win.value.height, w));
      [SetResizable(w.resizable), SetMinimumSize(w.minWidth, w.minHeight), SetAlwaysOnTop(w.alwaysOnTop), SetBounds(bounds)]
        + StartStateEffects(w.startState)
  }

  /**
   * The window plan keeps the position, never lets the width drop below the
   * minimum set just before it, keeps the current height when none is
   * stored, and brings the window within its limits when the settings are
   * valid.
   */
  lemma WindowPlanBounds(win: Option<Bounds>, w: WindowSettings)
    ensures var effects := WindowPlan(win, w);
      win.None? ==> effects == []
    ensures var effects := WindowPlan(win, w);
      win.Some? ==>
      && |effects| == (if w.startState == Last then 4 else 5)
      && effects[0] == SetResizable(w.resizable)
      && effects[1] == SetMinimumSize(w.minWidth, w.minHeight)
      && effects[2] == SetAlwaysOnTop(w.alwaysOnTop)
      && effects[3].SetBounds?
      && (w.startState == Maximized ==> effects[4] == Maximize)
      && (w.startState == Normal ==> effects[4] == Unmaximize)
    ensures var effects := WindowPlan(win, w);
      win.Some? ==> var b := effects[3].bounds;
      && b.x == win.value.x && b.y == win.value.y
      && (w.minWidth <= MaxWindowWidth ==> w.minWidth <= b.width <= MaxWindowWidth)
      && (w.minWidth <= w.width <= MaxWindowWidth ==> b.width == w.width)
      && (w.height.None? ==> b.height == win.value.height)
      && (w.height.Some? && w.height.value != 0.0 && w.minHeight <= MaxWindowHeight ==>
            w.minHeight <= b.height <= MaxWindowHeight)
      && (w.height.Some? && w.minHeight <= w.height.value <= MaxWindowHeight && w.height.value != 0.0 ==>
            b.height == w.height.value)
    ensures var effects := WindowPlan(win, w);
      win.Some? && ValidWindow(w) ==> var b := effects[3].bounds;
      && w.minWidth <= b.width <= MaxWindowWidth
      && (w.height.Some? ==> w.minHeight <= b.height <= MaxWindowHeight)
  {
  }

  /** `applyWindowSettings`, call by call. */
  method ApplyWindowSettings(win: Option<Bounds>, w: WindowSettings) returns (effects: seq<Effect>)
    ensures effects == WindowPlan(win, w)
  {
    if win.None? {
      return [];
    }
    effects := [SetResizable(w.resizable), SetMinimumSize(w.minWidth, w.minHeight), SetAlwaysOnTop(w.alwaysOnTop)];
    var bounds := win.value;
    var width := Clamp(w.width, w.minWidth, MaxWindowWidth);
    var height := WindowHeight(bounds.height, w);
    effects := effects + [SetBounds(bounds.(width := width, height := height))];
    if w.startState == Maximized {
      effects := effects + [Maximize];
    } else if w.startState == Normal {
      effects := effects + [Unmaximize];
    }
  }

  // User agent

  const UaDesktop: string :=
    "Mozilla/5.0 (Windows NT 10.0; Win64; x64) AppleWebKit/537.36 (KHTML, like Gecko) Chrome/120.0.0.0 Safari/537.36"
  const UaAndroid: string :=
    "Mozilla/5.0 (Linux; Android 10; SM-G973F) AppleWebKit/537.36 (KHTML, like Gecko) Chrome/120.0.0.0 Mobile Safari/537.36"

  /** The characters `String.prototype.trim` removes: white space and line terminators. */
  predicate IsJsWhitespace(c: char)
  {
    || c == '\t' || c == '\n' || c == '\U{B}' || c == '\U{C}' || c == '\r' || c == ' '
    || c == '\U{A0}' || c == '\U{1680}' || ('\U{2000}' <= c <= '\U{200A}')
    || c == '\U{2028}' || c == '\U{2029}' || c == '\U{202F}' || c == '\U{205F}'
    || c == '\U{3000}' || c == '\U{FEFF}'
  }

  predicate AllWhitespace(s: string)
  {
    forall i :: 0 <= i < |s| ==> IsJsWhitespace(s[i])
  }

  /** Where the text starts once the white space from `from` on is skipped. */
  function SkipLeading(s: string, from: nat): (k: nat)
    requires from <= |s|
    ensures from <= k <= |s|
    ensures forall j :: from <= j < k ==> IsJsWhitespace(s[j])
    ensures k < |s| ==> !IsJsWhitespace(s[k])
    decreases |s| - from
  {
    if from < |s| && IsJsWhitespace(s[from]) then SkipLeading(s, from + 1) else from
  }

  /** Where the text ends once the white space before `hi`, and after `lo`, is dropped. */
  function SkipTrailing(s: string, lo: nat, hi: nat): (e: nat)
    requires lo <= hi <= |s|
    ensures lo <= e <= hi
    ensures forall j :: e <= j < hi ==> IsJsWhitespace(s[j])
    ensures lo < e ==> !IsJsWhitespace(s[e - 1])
    decreases hi
  {
    if lo < hi && IsJsWhitespace(s[hi - 1]) then SkipTrailing(s, lo, hi - 1) else hi
  }

  /**
   * `String.prototype.trim`: the longest slice of `s` that starts and ends
   * with a non-white-space character; empty exactly when `s` is all white
   * space.
   */
  function Trim(s: string): (r: string)
    ensures |r| <= |s|
    ensures exists i :: 0 <= i <= |s| - |r| && r == s[i..i + |r|] && AllWhitespace(s[..i]) && AllWhitespace(s[i + |r|..])
    ensures r != [] ==> !IsJsWhitespace(r[0]) && !IsJsWhitespace(r[|r| - 1])
    ensures r == [] <==> AllWhitespace(s)
  {
    var i := SkipLeading(s, 0);
    var e := SkipTrailing(s, i, |s|);
    TrimEnds(s);
    var r := s[i..e];
    assert r == s[i..i + |r|];
    assert r != [] ==> r[0] == s[i] && r[|r| - 1] == s[e - 1];
    r
  }

  /** The skipped prefix and suffix are white space, and nothing is left exactly when all of `s` is. */
  lemma TrimEnds(s: string)
    ensures var i := SkipLeading(s, 0); var e := SkipTrailing(s, i, |s|);
      && AllWhitespace(s[..i])
      && AllWhitespace(s[e..])
      && (i == e <==> AllWhitespace(s))
  {
    var i := SkipLeading(s, 0);
    var e := SkipTrailing(s, i, |s|);
    assert forall j :: 0 <= j < i ==> s[..i][j] == s[j];
    assert forall j :: 0 <= j < |s| - e ==> s[e..][j] == s[e + j];
    // a non-white-space character at `i` would survive trailing trimming
    assert i < |s| ==> i < e;
  }

  /**
   * `getUserAgentValue`: the fixed desktop or Android string, the trimmed
   * custom string (the desktop string when nothing is left), or, in the
   * default mode, `fallback`, the session's own user agent. Custom mode
   * never yields an empty user agent.
   */
  function UserAgentValue(mode: UaMode, custom: string, fallback: string): (ua: string)
    ensures mode == ChromeDesktop ==> ua == UaDesktop
    ensures mode == ChromeAndroid ==> ua == UaAndroid
    ensures mode == UaDefault ==> ua == fallback
    ensures mode == UaCustom && AllWhitespace(custom) ==> ua == UaDesktop
    ensures mode == UaCustom && !AllWhitespace(custom) ==> ua == Trim(custom) && ua != []
    ensures mode == UaCustom ==> ua != []
  {
    match mode
    case ChromeDesktop => UaDesktop
    case ChromeAndroid => UaAndroid
    case UaCustom =>
      var trimmed := Trim(custom);
      if trimmed != "" then trimmed else UaDesktop
    case UaDefault => fallback
  }

  /** What `applyUserAgent` does once the user agent is chosen. */
  function UserAgentEffects(ua: string, reload: bool, hasWindow: bool): seq<Effect>
  {
    [SetUserAgent(DefaultSession, ua), SetUserAgent(YouTubeSession, ua)]
    + (if reload then [ClearCache(YouTubeSession)] + (if hasWindow then [ReloadIgnoringCache] else []) else [])
  }

  /**
   * Both sessions get the user agent first; the cache is cleared exactly on
   * a reload, and the page reloaded exactly on a reload with a window.
   */
  lemma UserAgentEffectsShape(ua: string, reload: bool, hasWindow: bool)
    ensures var effects := UserAgentEffects(ua, reload, hasWindow);
      && |effects| >= 2 && effects[..2] == [SetUserAgent(DefaultSession, ua), SetUserAgent(YouTubeSession, ua)]
      && (ClearCache(YouTubeSession) in effects <==> reload)
      && (ReloadIgnoringCache in effects <==> reload && hasWindow)
  {
  }

  // Proxy

  /**
   * The effects of `applyDpiBypass` once it is known whether the proxy is
   * serving: both sessions direct, unless the mode is demergi and the proxy
   * is up, in which case the command-line switches come first and both
   * sessions are pointed at the local port.
   */
  function ProxyPlan(dpi: DpiSettings, proxyUp: bool): (effects: seq<Effect>)
    ensures var config := if dpi.mode == Demergi && proxyUp then LocalProxy(dpi.port, dpi.bypass) else Direct;
      && |effects| >= 2
      && effects[|effects| - 2] == SetProxy(DefaultSession, config)
      && effects[|effects| - 1] == SetProxy(YouTubeSession, config)
    ensures AppendProxyServer(dpi.port) in effects <==> dpi.mode == Demergi && proxyUp
    ensures AppendProxyBypassList(dpi.bypass) in effects <==> dpi.mode == Demergi && proxyUp && dpi.bypass != ""
    ensures forall e :: e in effects ==> e.SetProxy? || e == AppendProxyServer(dpi.port) || e == AppendProxyBypassList(dpi.bypass)
  {
    if dpi.mode == Off || !proxyUp then
      [SetProxy(DefaultSession, Direct), SetProxy(YouTubeSession, Direct)]
    else
      var config := LocalProxy(dpi.port, dpi.bypass);
      var switches := [AppendProxyServer(dpi.port)] + (if dpi.bypass != "" then [AppendProxyBypassList(dpi.bypass)] else []);
      var sessions := [SetProxy(DefaultSession, config), SetProxy(YouTubeSession, config)];
      assert |switches + sessions| - 2 == |switches|;
      assert (switches + sessions)[|switches|..] == sessions;
      assert dpi.mode == Demergi && proxyUp;
      switches + sessions
  }

  /**
   * `applyDpiBypass`: stop the proxy when the mode is off, otherwise make
   * sure it runs, then configure the sessions accordingly. When the proxy
   * module was already loaded on another port, whether the proxy is still
   * recorded as running or was stopped since, it is not moved, yet the
   * sessions are pointed at the new port.
   */
  method ApplyDpiBypass(manager: Manager, dpi: DpiSettings, startSucceeds: bool) returns (effects: seq<Effect>)
    requires manager.Valid()
    modifies manager
    ensures manager.Valid()
    ensures manager.GetDpiState() == ProxyAfter(old(manager.GetDpiState()), dpi, old(manager.Loads(startSucceeds)))
    ensures effects == ProxyPlan(dpi, manager.isRunning)
    ensures old(manager.loadedOn).Some? ==> manager.loadedOn == old(manager.loadedOn)
    // not wanted (off, or demergi without auto-start): stopped, sessions direct
    ensures dpi.mode == Off || !dpi.autoStart ==>
      && !manager.isRunning && manager.startAttempts == old(manager.startAttempts)
      && effects == [SetProxy(DefaultSession, Direct), SetProxy(YouTubeSession, Direct)]
    ensures dpi.mode == Demergi && dpi.autoStart && old(manager.isRunning) ==> unchanged(manager)
    ensures dpi.mode == Demergi && dpi.autoStart && !old(manager.isRunning) ==>
      && manager.isRunning == old(manager.Loads(startSucceeds))
      && manager.startAttempts == old(manager.startAttempts) + 1
      && (startSucceeds ==> manager.currentPort == Some(dpi.port))
    // a port change while running leaves the sessions on a port nobody listens on
    ensures dpi.mode == Demergi && dpi.autoStart && old(manager.isRunning) && old(manager.currentPort) != Some(dpi.port) ==>
      && SetProxy(DefaultSession, LocalProxy(dpi.port, dpi.bypass)) in effects
      && manager.currentPort != Some(dpi.port)
    // so does a new port after the module was loaded once, even across a stop:
    // the start is recorded on the new port, the proxy stays on the old one
    ensures dpi.mode == Demergi && dpi.autoStart && old(manager.loadedOn).Some? && old(manager.loadedOn) != Some(dpi.port) ==>
      && manager.isRunning
      && SetProxy(DefaultSession, LocalProxy(dpi.port, dpi.bypass)) in effects
      && manager.loadedOn != Some(dpi.port)
  {
    if dpi.mode == Off {
      manager.StopDpiProcess();
      effects := [SetProxy(DefaultSession, Direct), SetProxy(YouTubeSession, Direct)];
      return;
    }
    var ok := manager.EnsureDemergi(dpi, startSucceeds);
    if !ok {
      effects := [SetProxy(DefaultSession, Direct), SetProxy(YouTubeSession, Direct)];
      return;
    }
    effects := [AppendProxyServer(dpi.port)];
    if dpi.bypass != "" {
      effects := effects + [AppendProxyBypassList(dpi.bypass)];
    }
    var config := LocalProxy(dpi.port, dpi.bypass);
    effects := effects + [SetProxy(DefaultSession, config), SetProxy(YouTubeSession, config)];
  }
}
