/**
 * The renderer's overlay visibility store: four flags and the eight actions
 * that set them. Opening search or settings closes the action panel.
 */
module OverlayStore {

  /** The four flags at one moment. */
  datatype OverlayFlags = OverlayFlags(panel: bool, search: bool, settings: bool, diagnostics: bool)

  class Store {
    var isPanelOpen: bool
    var isSearchOpen: bool
    var isSettingsOpen: bool
    var diagnosticsMode: bool

    /** The store's current flags. */
    function Flags(): (f: OverlayFlags)
      reads this
      ensures f.panel == isPanelOpen && f.search == isSearchOpen
      ensures f.settings == isSettingsOpen && f.diagnostics == diagnosticsMode
    {
      OverlayFlags(isPanelOpen, isSearchOpen, isSettingsOpen, diagnosticsMode)
    }

    /** Everything closed, diagnostics off. */
    constructor ()
      ensures !isPanelOpen && !isSearchOpen && !isSettingsOpen && !diagnosticsMode
    {
      isPanelOpen := false;
      isSearchOpen := false;
      isSettingsOpen := false;
      diagnosticsMode := false;
    }

    method OpenPanel()
      modifies this
      ensures isPanelOpen
      ensures isSearchOpen == old(isSearchOpen) && isSettingsOpen == old(isSettingsOpen)
      ensures diagnosticsMode == old(diagnosticsMode)
    {
      isPanelOpen := true;
    }

    method TogglePanel()
      modifies this
      ensures isPanelOpen == !old(isPanelOpen)
      ensures isSearchOpen == old(isSearchOpen) && isSettingsOpen == old(isSettingsOpen)
      ensures diagnosticsMode == old(diagnosticsMode)
    {
      isPanelOpen := !isPanelOpen;
    }

    method ClosePanel()
      modifies this
      ensures !isPanelOpen
      ensures isSearchOpen == old(isSearchOpen) && isSettingsOpen == old(isSettingsOpen)
      ensures diagnosticsMode == old(diagnosticsMode)
    {
      isPanelOpen := false;
    }

    /** Opening search closes the panel. */
    method OpenSearch()
      modifies this
      ensures isSearchOpen && !isPanelOpen
      ensures isSettingsOpen == old(isSettingsOpen) && diagnosticsMode == old(diagnosticsMode)
    {
      isSearchOpen, isPanelOpen := true, false;
    }

    method CloseSearch()
      modifies this
      ensures !isSearchOpen
      ensures isPanelOpen == old(isPanelOpen) && isSettingsOpen == old(isSettingsOpen)
      ensures diagnosticsMode == old(diagnosticsMode)
    {
      isSearchOpen := false;
    }

    /** Opening settings closes the panel. */
    method OpenSettings()
      modifies this
      ensures isSettingsOpen && !isPanelOpen
      ensures isSearchOpen == old(isSearchOpen) && diagnosticsMode == old(diagnosticsMode)
    {
      isSettingsOpen, isPanelOpen := true, false;
    }

    method CloseSettings()
      modifies this
      ensures !isSettingsOpen
      ensures isPanelOpen == old(isPanelOpen) && isSearchOpen == old(isSearchOpen)
      ensures diagnosticsMode == old(diagnosticsMode)
    {
      isSettingsOpen := false;
    }

    method ToggleDiagnostics()
      modifies this
      ensures diagnosticsMode == !old(diagnosticsMode)
      ensures isPanelOpen == old(isPanelOpen) && isSearchOpen == old(isSearchOpen)
      ensures isSettingsOpen == old(isSettingsOpen)
    {
      diagnosticsMode := !diagnosticsMode;
    }
  }

  /** Toggling the panel twice, or diagnostics twice, restores every flag. */
  method TogglesUndo(s: Store)
    modifies s
    ensures s.isPanelOpen == old(s.isPanelOpen) && s.isSearchOpen == old(s.isSearchOpen)
    ensures s.isSettingsOpen == old(s.isSettingsOpen) && s.diagnosticsMode == old(s.diagnosticsMode)
  {
    s.TogglePanel();
    s.TogglePanel();
    s.ToggleDiagnostics();
    s.ToggleDiagnostics();
  }

  /**
   * Closing the panel a second time leaves exactly the state the first
   * close left (`afterFirst`), which is the old state with the panel closed.
   */
  method ClosePanelIdempotent(s: Store) returns (afterFirst: OverlayFlags)
    modifies s
    ensures afterFirst == old(s.Flags()).(panel := false)
    ensures s.Flags() == afterFirst
  {
    s.ClosePanel();
    afterFirst := s.Flags();
    s.ClosePanel();
  }

  /**
   * Closing search, then settings, a second time over leaves exactly the
   * state the first round of closes left (`afterFirst`).
   */
  method CloseOverlaysIdempotent(s: Store) returns (afterFirst: OverlayFlags)
    modifies s
    ensures afterFirst == old(s.Flags()).(search := false, settings := false)
    ensures s.Flags() == afterFirst
  {
    s.CloseSearch();
    s.CloseSettings();
    afterFirst := s.Flags();
    s.CloseSearch();
    s.CloseSettings();
  }
}
