// The workspace's right sidebar: an icon rail whose options open and close
// a drawer, an "open-drawer" event that agents send to open one, and the
// panel the drawer shows.
module RightSidebar {
  import opened Wrappers

  const DataDnaOption := "dataDNA"
  const SqlOption := "sql"
  const PythonOption := "python"
  const ContextOption := "context"

  /** The two state variables. */
  datatype View = View(isExpanded: bool, activeOption: Option<string>)

  /** handleOptionClick: the open option collapses the drawer; any other, or
    * any option while collapsed, opens on it. */
  function Clicked(v: View, option: string): (r: View)
    ensures v.activeOption == Some(option) && v.isExpanded ==> r == View(false, None)
    ensures !(v.activeOption == Some(option) && v.isExpanded) ==> r == View(true, Some(option))
  {
    if v.activeOption == Some(option) && v.isExpanded then View(false, None) else View(true, Some(option))
  }

  /** The open-drawer listener: a truthy drawer is opened whatever the state,
    * a missing or empty one is ignored. */
  function DrawerOpened(v: View, drawer: Option<string>): (r: View)
    ensures drawer.Some? && drawer.value != "" ==> r == View(true, drawer)
    ensures drawer.None? || drawer.value == "" ==> r == v
  {
    if drawer.Some? && drawer.value != "" then View(true, drawer) else v
  }

  /** The drawer is open exactly when an option is selected. */
  predicate Consistent(v: View)
  {
    v.isExpanded <==> v.activeOption.Some?
  }

  /** Both handlers keep the drawer consistent. */
  lemma HandlersKeepConsistent(v: View, option: string, drawer: Option<string>)
    requires Consistent(v)
    ensures Consistent(Clicked(v, option)) && Consistent(DrawerOpened(v, drawer))
  {
  }

  /** From the collapsed state, two clicks on one option collapse it again;
    * a click on another option while open switches to it. */
  lemma ClickTwice(option: string, other: string)
    requires other != option
    ensures Clicked(Clicked(View(false, None), option), option) == View(false, None)
    ensures Clicked(Clicked(View(false, None), option), other) == View(true, Some(other))
  {
  }

  /** What the drawer shows. */
  datatype Panel =
    | NoPanel
    | DnaPanel
    | SqlPanel(code: Option<string>)
    | PythonPanel(code: Option<string>)
    | ContextPanel(sessionId: string)
    | ContextNeedsSession

  /** A truthy optional string, else nothing: the code panes show their
    * placeholder for both. */
  function Truthy(s: Option<string>): (r: Option<string>)
    ensures r.Some? <==> s.Some? && s.value != ""
    ensures r.Some? ==> r == s
  {
    if s.Some? && s.value != "" then s else None
  }

  /** `isExpanded && activeOption && renderContent()`. */
  function Content(v: View, sqlCode: Option<string>, pythonCode: Option<string>, sessionId: Option<string>): (p: Panel)
    ensures !v.isExpanded || v.activeOption.None? || v.activeOption == Some("") ==> p == NoPanel
    ensures p.ContextPanel? ==> sessionId == Some(p.sessionId) && p.sessionId != ""
    ensures p != NoPanel ==> v.isExpanded && v.activeOption.Some?
    ensures (v.isExpanded && v.activeOption.Some? &&
             v.activeOption.value !in {DataDnaOption, SqlOption, PythonOption, ContextOption}) ==> p == NoPanel
  {
    if !v.isExpanded || v.activeOption.None? || v.activeOption.value == "" then NoPanel
    else
      var o := v.activeOption.value;
      if o == DataDnaOption then DnaPanel
      else if o == SqlOption then SqlPanel(Truthy(sqlCode))
      else if o == PythonOption then PythonPanel(Truthy(pythonCode))
      else if o == ContextOption then
        (if sessionId.Some? && sessionId.value != "" then ContextPanel(sessionId.value) else ContextNeedsSession)
      else NoPanel
  }

  /** In a consistent drawer every known option shows a panel as soon as it
    * is open, and the context panel shows the notice without a session. */
  lemma KnownOptionsShow(v: View, sqlCode: Option<string>, pythonCode: Option<string>)
    requires Consistent(v) && v.isExpanded
    requires v.activeOption.value in {DataDnaOption, SqlOption, PythonOption, ContextOption}
    ensures Content(v, sqlCode, pythonCode, None) != NoPanel
    ensures v.activeOption.value == ContextOption ==> Content(v, sqlCode, pythonCode, None) == ContextNeedsSession
  {
  }

  /** The component's state, changed in place by its handlers. */
  class Sidebar {
    var isExpanded: bool
    var activeOption: Option<string>

    function ViewOf(): View
      reads this
    {
      View(isExpanded, activeOption)
    }

    /** Collapsed, nothing selected. */
    constructor()
      ensures ViewOf() == View(false, None) && Consistent(ViewOf())
    {
      isExpanded := false;
      activeOption := None;
    }

    method OptionClick(option: string)
      modifies this
      ensures ViewOf() == Clicked(old(ViewOf()), option)
      ensures old(Consistent(ViewOf())) ==> Consistent(ViewOf())
    {
      if activeOption == Some(option) && isExpanded {
        isExpanded := false;
        activeOption := None;
      } else {
        activeOption := Some(option);
        isExpanded := true;
      }
    }

    method OpenDrawer(drawer: Option<string>)
      modifies this
      ensures ViewOf() == DrawerOpened(old(ViewOf()), drawer)
      ensures old(Consistent(ViewOf())) ==> Consistent(ViewOf())
    {
      if drawer.Some? && drawer.value != "" {
        activeOption := drawer;
        isExpanded := true;
      }
    }
  }
}
