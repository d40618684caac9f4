/**
 * The UI slice of the Redux store: sidebar visibility, colour theme, the
 * current view and a dictionary of loading flags keyed by string.
 */
module UiSlice {

  datatype Theme = Light | Dark

  /** `selectIsLoading(key)`: the flag stored under `key`, `false` for a key never set. */
  function LoadingFlag(isLoading: map<string, bool>, key: string): (r: bool)
    ensures key !in isLoading ==> !r
    ensures key in isLoading ==> r == isLoading[key]
  {
    key in isLoading && isLoading[key]
  }

  class UiState {
    var sidebarOpen: bool
    var theme: Theme
    var currentView: string
    var isLoading: map<string, bool>

    /** The initial state. */
    constructor ()
      ensures sidebarOpen && theme == Light && currentView == "dashboard" && isLoading == map[]
    {
      sidebarOpen := true;
      theme := Light;
      currentView := "dashboard";
      isLoading := map[];
    }

    /** `toggleSidebar`: negate `sidebarOpen`, nothing else changes. */
    method ToggleSidebar()
      modifies this
      ensures sidebarOpen == !old(sidebarOpen)
      ensures theme == old(theme) && currentView == old(currentView) && isLoading == old(isLoading)
    {
      sidebarOpen := !sidebarOpen;
    }

    /** `setTheme`: change the theme only. */
    method SetTheme(t: Theme)
      modifies this
      ensures theme == t
      ensures sidebarOpen == old(sidebarOpen) && currentView == old(currentView) && isLoading == old(isLoading)
    {
      theme := t;
    }

    /** `setCurrentView`: change the current view only. */
    method SetCurrentView(view: string)
      modifies this
      ensures currentView == view
      ensures sidebarOpen == old(sidebarOpen) && theme == old(theme) && isLoading == old(isLoading)
    {
      currentView := view;
    }

    /** `setLoading`: store the flag under its key; every other key keeps its entry. */
    method SetLoading(key: string, flag: bool)
      modifies this
      ensures isLoading == old(isLoading)[key := flag]
      ensures SelectIsLoading(key) == flag
      ensures forall k :: k != key ==> SelectIsLoading(k) == old(SelectIsLoading(k))
      ensures sidebarOpen == old(sidebarOpen) && theme == old(theme) && currentView == old(currentView)
    {
      isLoading := isLoading[key := flag];
    }

    function SelectSidebarOpen(): bool reads this { sidebarOpen }

    function SelectTheme(): Theme reads this { theme }

    function SelectCurrentView(): string reads this { currentView }

    function SelectIsLoading(key: string): (r: bool)
      reads this
      ensures r == LoadingFlag(isLoading, key)
    {
      LoadingFlag(isLoading, key)
    }
  }

  /** Toggling the sidebar twice restores the original state. */
  method ToggleTwice(ui: UiState)
    modifies ui
    ensures ui.sidebarOpen == old(ui.sidebarOpen) && ui.theme == old(ui.theme)
    ensures ui.currentView == old(ui.currentView) && ui.isLoading == old(ui.isLoading)
  {
    ui.ToggleSidebar();
    ui.ToggleSidebar();
  }
}
