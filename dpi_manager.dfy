/**
 * Lifecycle of the in-process demergi proxy. The proxy is loaded into the
 * application process itself, so it can be marked stopped but never really
 * unloaded or reconfigured: only the three fields below are managed.
 */
module DpiManager {
  import opened Wrappers
  import opened SettingsSchema

  /** What `getDpiState` reports. */
  datatype DpiStatus = DpiStatus(running: bool, mode: DpiMode, port: Option<real>)

  const Stopped := DpiStatus(false, Off, None)

  /** Running, demergi mode and a known port go together. */
  predicate Consistent(s: DpiStatus)
  {
    (s.running <==> s.mode == Demergi) && (s.running <==> s.port.Some?)
  }

  /**
   * The state `ensureDemergi` records: stopped unless demergi should start
   * automatically; otherwise a proxy recorded as running is kept as it is,
   * and a stopped one is recorded as running on the requested port exactly
   * when requiring the proxy module does not throw (`loads`). The recorded
   * port need not be the one the proxy listens on: see `Manager.loadedOn`.
   */
  function ProxyAfter(before: DpiStatus, dpi: DpiSettings, loads: bool): (after: DpiStatus)
    ensures after.running ==> dpi.mode == Demergi && dpi.autoStart
    ensures !after.running ==> after == Stopped
    ensures dpi.mode == Demergi && dpi.autoStart && before.running ==> after == before
    ensures !before.running && after.running ==> after.port == Some(dpi.port)
    ensures dpi.mode == Demergi && dpi.autoStart && !before.running ==> (after.running <==> loads)
  {
    if dpi.mode != Demergi || !dpi.autoStart then Stopped
    else if before.running then before
    else if loads then DpiStatus(true, Demergi, Some(dpi.port))
    else Stopped
  }

  /** The transition keeps the state consistent. */
  lemma ProxyAfterConsistent(before: DpiStatus, dpi: DpiSettings, loads: bool)
    requires Consistent(before)
    ensures Consistent(ProxyAfter(before, dpi, loads))
  {
  }

  /** Asking again for the same settings, with the same outcome, changes nothing. */
  lemma ProxyAfterIdempotent(before: DpiStatus, dpi: DpiSettings, loads: bool)
    ensures var after := ProxyAfter(before, dpi, loads);
      ProxyAfter(after, dpi, loads) == after
  {
  }

  /** Stopping after any request returns to the initial state. */
  lemma StopAfterAnyRequest(before: DpiStatus, dpi: DpiSettings, loads: bool)
    ensures ProxyAfter(ProxyAfter(before, dpi, loads), dpi.(mode := Off), loads) == Stopped
  {
  }

  class Manager {
    var isRunning: bool
    var currentMode: DpiMode
    var currentPort: Option<real>
    /**
     * The port the proxy module was first loaded on, which is the port it
     * listens on until the process exits. It stands for Node's module
     * cache: once `demergi.js` has loaded, requiring it again neither runs
     * it nor throws, so `DEMERGI_ADDRS` is never read a second time.
     */
    var loadedOn: Option<real>
    /** How many times loading the proxy module was attempted. */
    ghost var startAttempts: nat

    /** Running, demergi mode and a known port go together, and running means loaded. */
    ghost predicate Valid()
      reads this
    {
      Consistent(DpiStatus(isRunning, currentMode, currentPort)) && (isRunning ==> loadedOn.Some?)
    }

    /**
     * Whether requiring the proxy module does not throw: always once it is
     * loaded, otherwise as `startSucceeds`, the outcome of a first load.
     */
    function Loads(startSucceeds: bool): (r: bool)
      reads this
      ensures loadedOn.Some? ==> r
      ensures loadedOn.None? ==> r == startSucceeds
    {
      loadedOn.Some? || startSucceeds
    }

    /** The state at process start. */
    constructor ()
      ensures Valid()
      ensures !isRunning && currentMode == Off && currentPort == None
      ensures loadedOn == None && startAttempts == 0
    {
      isRunning := false;
      currentMode := Off;
      currentPort := None;
      loadedOn := None;
      startAttempts := 0;
    }

    /** Marks the proxy stopped; it keeps serving until the process restarts. */
    method StopDpiProcess()
      requires Valid()
      modifies this
      ensures Valid()
      ensures !isRunning && currentMode == Off && currentPort == None
      ensures !old(isRunning) ==> unchanged(this)
      ensures loadedOn == old(loadedOn) && startAttempts == old(startAttempts)
    {
      if !isRunning {
        return;
      }
      isRunning := false;
      currentPort := None;
      currentMode := Off;
    }

    /**
     * Brings the proxy up for `dpi` when its mode is demergi and it starts
     * automatically. `startSucceeds` is the outcome of a first load of the
     * proxy module, the one step that can fail; a module already loaded is
     * not loaded again, so a later start always succeeds and the proxy stays
     * on the port of the first load.
     */
    method EnsureDemergi(dpi: DpiSettings, startSucceeds: bool) returns (ok: bool)
      requires Valid()
      modifies this
      ensures Valid()
      ensures GetDpiState() == ProxyAfter(old(GetDpiState()), dpi, old(Loads(startSucceeds)))
      ensures ok == isRunning
      // the module is loaded at most once, on the port of that first load
      ensures old(loadedOn).Some? ==> loadedOn == old(loadedOn)
      ensures old(loadedOn).None? ==> loadedOn == (if ok then Some(dpi.port) else None)
      // not wanted: stop and report false
      ensures dpi.mode != Demergi || !dpi.autoStart ==>
        !ok && !isRunning && startAttempts == old(startAttempts)
      // already running, on the requested port or not: nothing is started and nothing changes
      ensures dpi.mode == Demergi && dpi.autoStart && old(isRunning) ==>
        ok && unchanged(this)
      // stopped: one start attempt, whose outcome decides everything
      ensures dpi.mode == Demergi && dpi.autoStart && !old(isRunning) ==>
        && startAttempts == old(startAttempts) + 1
        && ok == old(Loads(startSucceeds))
        && (ok ==> currentPort == Some(dpi.port))
        && (!ok ==> !isRunning && currentMode == Off && currentPort == None)
    {
      if dpi.mode != Demergi || !dpi.autoStart {
        StopDpiProcess();
        return false;
      }
      if isRunning && currentMode == Demergi && currentPort == Some(dpi.port) {
        return true;
      }
      if isRunning {
        // cannot be reconfigured without a restart; report success anyway
        return true;
      }
      startAttempts := startAttempts + 1;
      if loadedOn.None? {
        if !startSucceeds {
          StopDpiProcess();
          return false;
        }
        loadedOn := Some(dpi.port);
      }
      isRunning := true;
      currentMode := Demergi;
      currentPort := Some(dpi.port);
      return true;
    }

    /** `getDpiState`: a copy of the three fields. */
    function GetDpiState(): (s: DpiStatus)
      reads this
      ensures Valid() ==> Consistent(s)
      ensures s.running == isRunning && s.mode == currentMode && s.port == currentPort
    {
      DpiStatus(isRunning, currentMode, currentPort)
    }
  }

  /**
   * A start on 8080, a stop, then a start on 9090: the manager records a
   * proxy running on 9090 while the loaded one still listens on 8080, and
   * the second start succeeds whatever a fresh load would have done.
   */
  method RestartKeepsFirstPort(freshLoadSucceeds: bool) returns (m: Manager, ok: bool)
    ensures m.Valid() && ok
    ensures m.GetDpiState() == DpiStatus(true, Demergi, Some(9090.0))
    ensures m.loadedOn == Some(8080.0)
  {
    m := new Manager();
    ok := m.EnsureDemergi(DpiSettings(Demergi, 8080.0, "", true), true);
    m.StopDpiProcess();
    ok := m.EnsureDemergi(DpiSettings(Demergi, 9090.0, "", true), freshLoadSucceeds);
  }
}
