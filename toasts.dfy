// The in-memory toast queue of the agent system and the messages it shows.
// The presence of a browser window, the random toast id and the timer that
// removes a toast are inputs; a listener is an opaque identifier, and what
// it receives is recorded as a delivery.
module Toasts {
  import Text
  import opened Wrappers
  import AgentIdentities

  datatype ToastType = Success | Error | Warning | Info

  /** A display time in milliseconds, or `Infinity`. */
  datatype Duration = Finite(ms: nat) | Forever

  datatype Toast = Toast(id: string, kind: ToastType, title: string, description: string, duration: Duration)

  /** What one of the helpers asks the manager to show. */
  datatype ToastRequest = ToastRequest(kind: ToastType, title: string, description: string, duration: Duration)

  type ListenerId = nat

  /** One notification: the listener and the copy of the list it was given. */
  datatype Delivery = Delivery(listener: ListenerId, snapshot: seq<Toast>)

  const DefaultDuration := Finite(5000)

  /** Dismissing a toast keeps every other toast in order. */
  function WithoutId(ts: seq<Toast>, id: string): (r: seq<Toast>)
    ensures |r| <= |ts|
    ensures forall i | 0 <= i < |r| :: r[i].id != id
    ensures forall t | t in ts && t.id != id :: t in r
    ensures forall t | t in r :: t in ts
  {
    if ts == [] then []
    else
      var rest := WithoutId(ts[..|ts| - 1], id);
      if ts[|ts| - 1].id != id then rest + [ts[|ts| - 1]] else rest
  }

  /** Removal keeps the other toasts in their order: it distributes over concatenation. */
  lemma {:induction false} WithoutIdAppend(a: seq<Toast>, b: seq<Toast>, id: string)
    ensures WithoutId(a + b, id) == WithoutId(a, id) + WithoutId(b, id)
    decreases |b|
  {
    if b == [] {
      assert a + b == a;
    } else {
      var init := b[..|b| - 1];
      assert (a + b)[..|a + b| - 1] == a + init;
      WithoutIdAppend(a, init, id);
    }
  }

  /** Removing an id that no toast has changes nothing, so removing twice is removing once. */
  lemma {:induction false} WithoutIdAbsent(ts: seq<Toast>, id: string)
    requires forall i | 0 <= i < |ts| :: ts[i].id != id
    ensures WithoutId(ts, id) == ts
  {
    if ts != [] {
      WithoutIdAbsent(ts[..|ts| - 1], id);
      assert ts == ts[..|ts| - 1] + [ts[|ts| - 1]];
    }
  }

  lemma WithoutIdIdempotent(ts: seq<Toast>, id: string)
    ensures WithoutId(WithoutId(ts, id), id) == WithoutId(ts, id)
  {
    WithoutIdAbsent(WithoutId(ts, id), id);
  }

  /** One delivery of `snapshot` per listener, in subscription order. */
  function Deliveries(listeners: seq<ListenerId>, snapshot: seq<Toast>): (ds: seq<Delivery>)
    ensures |ds| == |listeners|
    ensures forall i | 0 <= i < |ds| :: ds[i] == Delivery(listeners[i], snapshot)
  {
    if listeners == [] then [] else Deliveries(listeners[..|listeners| - 1], snapshot) + [Delivery(listeners[|listeners| - 1], snapshot)]
  }

  predicate NoDuplicates(ls: seq<ListenerId>)
  {
    forall i, j | 0 <= i < j < |ls| :: ls[i] != ls[j]
  }

  /** `Set.prototype.delete`: the listeners without `l`. */
  function Unlisted(ls: seq<ListenerId>, l: ListenerId): (r: seq<ListenerId>)
    ensures l !in r
    ensures forall x | x in ls && x != l :: x in r
    ensures forall x | x in r :: x in ls
    ensures NoDuplicates(ls) ==> NoDuplicates(r)
  {
    if ls == [] then []
    else
      var rest := Unlisted(ls[..|ls| - 1], l);
      if ls[|ls| - 1] == l then rest
      else
        assert NoDuplicates(ls) ==> NoDuplicates(ls[..|ls| - 1]) && ls[|ls| - 1] !in ls[..|ls| - 1];
        rest + [ls[|ls| - 1]]
  }

  class ToastManager {
    var toasts: seq<Toast>
    /** The listener set, in insertion order as a JavaScript Set iterates it. */
    var listeners: seq<ListenerId>
    /** Every copy handed to a listener so far, oldest first. */
    var delivered: seq<Delivery>
    /** The removal timers started so far: the toast id and the delay. */
    var timers: seq<(string, nat)>

    ghost predicate Valid()
      reads this
    {
      NoDuplicates(listeners)
    }

    constructor()
      ensures Valid() && toasts == [] && listeners == [] && delivered == [] && timers == []
    {
      toasts := [];
      listeners := [];
      delivered := [];
      timers := [];
    }

    /** Hands every listener a copy of the current list. */
    method NotifyListeners()
      modifies this
      ensures toasts == old(toasts) && listeners == old(listeners) && timers == old(timers)
      ensures delivered == old(delivered) + Deliveries(listeners, toasts)
    {
      var i := 0;
      while i < |listeners|
        invariant 0 <= i <= |listeners|
        invariant toasts == old(toasts) && listeners == old(listeners) && timers == old(timers)
        invariant delivered == old(delivered) + Deliveries(listeners[..i], toasts)
      {
        assert listeners[..i + 1][..i] == listeners[..i];
        delivered := delivered + [Delivery(listeners[i], toasts)];
        i := i + 1;
      }
      assert listeners[..i] == listeners;
    }

    /** show: outside a browser nothing happens; otherwise exactly one toast is
      * appended, every listener is notified, and a finite duration starts a
      * removal timer. */
    method Show(hasWindow: bool, req: ToastRequest, id: string)
      requires Valid()
      modifies this
      ensures Valid() && listeners == old(listeners)
      ensures !hasWindow ==> toasts == old(toasts) && delivered == old(delivered) && timers == old(timers)
      ensures hasWindow ==>
                && toasts == old(toasts) + [Toast(id, req.kind, req.title, req.description, req.duration)]
                && delivered == old(delivered) + Deliveries(listeners, toasts)
                && timers == old(timers) + (if req.duration.Finite? then [(id, req.duration.ms)] else [])
    {
      if !hasWindow {
        return;
      }
      toasts := toasts + [Toast(id, req.kind, req.title, req.description, req.duration)];
      NotifyListeners();
      if req.duration.Finite? {
        timers := timers + [(id, req.duration.ms)];
      }
    }

    /** remove: every toast with this id goes, the others stay in order, and
      * the listeners are notified. A removal timer firing calls this. */
    method Remove(id: string)
      requires Valid()
      modifies this
      ensures Valid() && listeners == old(listeners) && timers == old(timers)
      ensures toasts == WithoutId(old(toasts), id)
      ensures delivered == old(delivered) + Deliveries(listeners, toasts)
    {
      toasts := WithoutId(toasts, id);
      NotifyListeners();
    }

    /** subscribe: adds the listener once. */
    method Subscribe(l: ListenerId)
      requires Valid()
      modifies this
      ensures Valid() && toasts == old(toasts) && delivered == old(delivered) && timers == old(timers)
      ensures listeners == if l in old(listeners) then old(listeners) else old(listeners) + [l]
    {
      if l !in listeners {
        listeners := listeners + [l];
      }
    }

    /** The function returned by subscribe: removes that listener and says whether it was there. */
    method Unsubscribe(l: ListenerId) returns (removed: bool)
      requires Valid()
      modifies this
      ensures Valid() && toasts == old(toasts) && delivered == old(delivered) && timers == old(timers)
      ensures removed == (l in old(listeners))
      ensures listeners == Unlisted(old(listeners), l)
    {
      removed := l in listeners;
      listeners := Unlisted(listeners, l);
    }
  }

  // ---------------------------------------------------------------------
  // The messages

  const RotationIcon := "\U{1F504}"
  const ErrorIcon := "\U{274C}"
  const SuccessIcon := "\U{2705}"
  const GearIcon := "\U{2699}\U{FE0F}"

  /** `backup` or `backups` for the number of keys left. */
  function Backups(remaining: int): string
  {
    if remaining != 1 then " backups available)" else " backup available)"
  }

  /** A key failed: the warning counts the keys after it, `total - index - 1`. */
  function KeyFailureToast(keyIndex: nat, totalKeys: nat): (t: ToastRequest)
    ensures t.kind == Warning && t.duration == DefaultDuration && t.title == RotationIcon + " API Key Rotation"
    ensures Text.StartsWith(t.description, "Key #" + Text.NatToString(keyIndex + 1) + " exhausted. Switching to backup... (")
    ensures Text.EndsWith(t.description, Text.IntToString(totalKeys - keyIndex - 1) + Backups(totalKeys - keyIndex - 1))
    ensures t.description == "Key #" + Text.NatToString(keyIndex + 1) + " exhausted. Switching to backup... ("
                             + Text.IntToString(totalKeys - keyIndex - 1) + Backups(totalKeys - keyIndex - 1)
  {
    var head := "Key #" + Text.NatToString(keyIndex + 1) + " exhausted. Switching to backup... (";
    var tail := Text.IntToString(totalKeys - keyIndex - 1) + Backups(totalKeys - keyIndex - 1);
    var d := head + tail;
    assert d[..|head|] == head && d[|d| - |tail|..] == tail;
    ToastRequest(Warning, RotationIcon + " API Key Rotation", d, DefaultDuration)
  }

  /** "backup" is singular exactly when one key is left. */
  lemma BackupPlural(remaining: int)
    ensures Text.EndsWith(Backups(remaining), "s available)") <==> remaining != 1
  {
    var b := Backups(remaining);
    if remaining == 1 {
      assert b[|b| - 12] == 'p';
    } else {
      assert b[|b| - 12..] == "s available)";
    }
  }

  /** All keys are out of credit: an error that stays until removed. */
  function AllKeysExhaustedToast(totalKeys: nat): (t: ToastRequest)
    ensures t.kind == Error && t.duration == Forever && t.title == ErrorIcon + " All API Keys Exhausted"
    ensures t.description == "All " + Text.NatToString(totalKeys) + " API keys have run out of credits. Please add credits or new keys."
  {
    ToastRequest(Error, ErrorIcon + " All API Keys Exhausted",
      "All " + Text.NatToString(totalKeys) + " API keys have run out of credits. Please add credits or new keys.", Forever)
  }

  /** Only the exhausted-keys toast is never scheduled for removal. */
  lemma OnlyExhaustedStays(keyIndex: nat, totalKeys: nat, newKeyIndex: nat, agentId: string, toolName: string,
                           title: string, description: string)
    ensures AllKeysExhaustedToast(totalKeys).duration.Forever?
    ensures KeyFailureToast(keyIndex, totalKeys).duration.Finite?
    ensures KeyRotationSuccessToast(newKeyIndex).duration.Finite?
    ensures AgentChangeToast(agentId).duration.Finite?
    ensures ToolCallToast(toolName).duration.Finite?
    ensures ErrorToast(title, description).duration.Finite?
    ensures SuccessToast(title, description).duration.Finite?
    ensures InfoToast(title, description).duration.Finite?
  {
  }

  function KeyRotationSuccessToast(newKeyIndex: nat): (t: ToastRequest)
    ensures t.kind == Success && t.duration == DefaultDuration && t.title == SuccessIcon + " API Key Rotated Successfully"
    ensures t.description == "Now using backup key #" + Text.NatToString(newKeyIndex + 1) + ". Continuing your request..."
  {
    ToastRequest(Success, SuccessIcon + " API Key Rotated Successfully",
      "Now using backup key #" + Text.NatToString(newKeyIndex + 1) + ". Continuing your request...", DefaultDuration)
  }

  /** The agent now handling the request, by its identity's icon and name. */
  function AgentChangeToast(agentId: string): (t: ToastRequest)
    ensures t.kind == Success && t.title == "Agent Active" && t.duration == Finite(4000)
    ensures var identity := AgentIdentities.GetAgentIdentity(Some(agentId));
            t.description == identity.icon + " " + identity.name + " is now handling your request."
  {
    var identity := AgentIdentities.GetAgentIdentity(Some(agentId));
    ToastRequest(Success, "Agent Active", identity.icon + " " + identity.name + " is now handling your request.", Finite(4000))
  }

  /** An unregistered agent is announced as the default assistant. */
  lemma UnknownAgentChange(agentId: string)
    requires !AgentIdentities.IsValidAgentId(agentId)
    ensures AgentChangeToast(agentId).description
            == AgentIdentities.DefaultIdentity.icon + " " + AgentIdentities.DefaultIdentity.name + " is now handling your request."
  {
    assert AgentIdentities.GetAgentIdentity(Some(agentId)) == AgentIdentities.DefaultIdentity;
  }

  /** TOOL_DISPLAY_NAMES: display name and icon of the five tools. */
  const ToolDisplayNames: map<string, (string, string)> := map[
    "read_data_dna" := ("Data DNA Read", "\U{1F4D6}"),
    "run_sql" := ("SQL Query Executed", "\U{1F4CA}"),
    "run_python" := ("Python Analysis Run", "\U{1F40D}"),
    "read_context" := ("Context Retrieved", "\U{1F50D}"),
    "write_context" := ("Insight Saved", "\U{1F4BE}")]

  /** The tool's display entry, or its own name with the gear icon. */
  function ToolDisplay(toolName: string): (d: (string, string))
    ensures toolName in ToolDisplayNames ==> d == ToolDisplayNames[toolName]
    ensures toolName !in ToolDisplayNames ==> d == (toolName, GearIcon)
  {
    if toolName in ToolDisplayNames then ToolDisplayNames[toolName] else (toolName, GearIcon)
  }

  function ToolCallToast(toolName: string): (t: ToastRequest)
    ensures t.kind == Info && t.duration == Finite(3000) && t.title == "Tool: " + toolName
    ensures t.description == ToolDisplay(toolName).1 + " " + ToolDisplay(toolName).0
  {
    var d := ToolDisplay(toolName);
    ToastRequest(Info, "Tool: " + toolName, d.1 + " " + d.0, Finite(3000))
  }

  /** An unknown tool is shown by its own name and the gear icon. */
  lemma UnknownToolToast(toolName: string)
    requires toolName !in ToolDisplayNames
    ensures ToolCallToast(toolName).description == GearIcon + " " + toolName
  {
  }

  /** Every tool the executor dispatches has a display entry of its own. */
  lemma DispatchedToolsDisplayed(toolName: string)
    requires toolName in {"read_data_dna", "run_sql", "run_python", "read_context", "write_context"}
    ensures ToolDisplay(toolName).1 != GearIcon
  {
  }

  /** A caller's own error message, shown for seven seconds. */
  function ErrorToast(title: string, description: string): (t: ToastRequest)
    ensures t.kind == Error && t.title == title && t.description == description && t.duration == Finite(7000)
  {
    ToastRequest(Error, title, description, Finite(7000))
  }

  /** A caller's own success message, shown for five seconds. */
  function SuccessToast(title: string, description: string): (t: ToastRequest)
    ensures t.kind == Success && t.title == title && t.description == description && t.duration == Finite(5000)
  {
    ToastRequest(Success, title, description, DefaultDuration)
  }

  /** A caller's own information message, shown for five seconds. */
  function InfoToast(title: string, description: string): (t: ToastRequest)
    ensures t.kind == Info && t.title == title && t.description == description && t.duration == Finite(5000)
  {
    ToastRequest(Info, title, description, DefaultDuration)
  }
}
