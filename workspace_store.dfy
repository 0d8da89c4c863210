// The workspace layout store: which panels are open, the right panel's tab
// and whether a dataset is loaded. Every action is a next-state function.
module WorkspaceStore {

  datatype Tab = Dna | Sql | Python | Context
  datatype Mode = Empty | Active

  datatype State = State(isLeftSidebarOpen: bool, isRightPanelOpen: bool, rightPanelTab: Tab, workspaceMode: Mode)

  /** Both panels open on the DNA tab, no dataset yet. */
  const Initial := State(true, true, Dna, Empty)

  function ToggleLeftSidebar(st: State): (r: State)
    ensures r.isLeftSidebarOpen != st.isLeftSidebarOpen
    ensures r.(isLeftSidebarOpen := st.isLeftSidebarOpen) == st
  {
    st.(isLeftSidebarOpen := !st.isLeftSidebarOpen)
  }

  function ToggleRightPanel(st: State): (r: State)
    ensures r.isRightPanelOpen != st.isRightPanelOpen
    ensures r.(isRightPanelOpen := st.isRightPanelOpen) == st
  {
    st.(isRightPanelOpen := !st.isRightPanelOpen)
  }

  function SetRightPanelTab(st: State, tab: Tab): (r: State)
    ensures r.rightPanelTab == tab && r.(rightPanelTab := st.rightPanelTab) == st
  {
    st.(rightPanelTab := tab)
  }

  function SetWorkspaceMode(st: State, mode: Mode): (r: State)
    ensures r.workspaceMode == mode && r.(workspaceMode := st.workspaceMode) == st
  {
    st.(workspaceMode := mode)
  }

  function SetLeftSidebarOpen(st: State, isOpen: bool): (r: State)
    ensures r.isLeftSidebarOpen == isOpen && r.(isLeftSidebarOpen := st.isLeftSidebarOpen) == st
  {
    st.(isLeftSidebarOpen := isOpen)
  }

  function SetRightPanelOpen(st: State, isOpen: bool): (r: State)
    ensures r.isRightPanelOpen == isOpen && r.(isRightPanelOpen := st.isRightPanelOpen) == st
  {
    st.(isRightPanelOpen := isOpen)
  }

  /** Toggling twice restores the state, and the two toggles commute. */
  lemma TogglesAreInvolutions(st: State)
    ensures ToggleLeftSidebar(ToggleLeftSidebar(st)) == st
    ensures ToggleRightPanel(ToggleRightPanel(st)) == st
    ensures ToggleLeftSidebar(ToggleRightPanel(st)) == ToggleRightPanel(ToggleLeftSidebar(st))
  {
  }

  /** Setting a field twice is setting it once, and the last value set wins. */
  lemma SettersIdempotent(st: State, tab: Tab, tab': Tab, mode: Mode, b: bool, b': bool)
    ensures SetRightPanelTab(SetRightPanelTab(st, tab), tab) == SetRightPanelTab(st, tab)
    ensures SetRightPanelTab(SetRightPanelTab(st, tab'), tab) == SetRightPanelTab(st, tab)
    ensures SetWorkspaceMode(SetWorkspaceMode(st, mode), mode) == SetWorkspaceMode(st, mode)
    ensures SetLeftSidebarOpen(SetLeftSidebarOpen(st, b'), b) == SetLeftSidebarOpen(st, b)
    ensures SetRightPanelOpen(SetRightPanelOpen(st, b'), b) == SetRightPanelOpen(st, b)
  {
  }

  /** A toggle is the setter given the negated current value. */
  lemma ToggleIsSetNegated(st: State)
    ensures ToggleLeftSidebar(st) == SetLeftSidebarOpen(st, !st.isLeftSidebarOpen)
    ensures ToggleRightPanel(st) == SetRightPanelOpen(st, !st.isRightPanelOpen)
  {
  }
}
