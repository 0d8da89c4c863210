// The workspace sidebar's chat list: the search filter, the split into
// pinned and recent chats, pinning, and the optimistic rename and delete
// handlers. The outcome of the network call a handler makes is the
// parameter `ok`; `props` is the chat list the component was given, which a
// failed call restores.
module WorkspaceSidebar {
  import opened Wrappers
  import Text

  datatype Chat = Chat(id: string, sessionId: string, title: Option<string>, createdAt: string)

  const Untitled := "Untitled Chat"

  /** `chat.title || "Untitled Chat"`. */
  function DisplayTitle(c: Chat): string
  {
    if c.title.Some? && c.title.value != "" then c.title.value else Untitled
  }

  predicate Matches(c: Chat, query: string)
  {
    Text.Contains(Text.Lower(DisplayTitle(c)), Text.Lower(query))
  }

  /** filteredChats: the chats whose shown title contains the query, ignoring case. */
  function Filtered(chats: seq<Chat>, query: string): (r: seq<Chat>)
    ensures |r| <= |chats|
  {
    if chats == [] then []
    else
      var rest := Filtered(chats[..|chats| - 1], query);
      if Matches(chats[|chats| - 1], query) then rest + [chats[|chats| - 1]] else rest
  }

  /** The filter keeps exactly the chats that match. */
  lemma {:induction false} FilteredMembers(chats: seq<Chat>, query: string, c: Chat)
    ensures c in Filtered(chats, query) <==> c in chats && Matches(c, query)
  {
    if chats != [] {
      var init := chats[..|chats| - 1];
      FilteredMembers(init, query, c);
      assert chats == init + [chats[|chats| - 1]];
    }
  }

  lemma MatchesEmpty(c: Chat)
    ensures Matches(c, "")
  {
    assert Text.Lower("") == "";
    Text.ContainsEmpty(Text.Lower(DisplayTitle(c)));
  }

  /** The empty query keeps every chat, in order. */
  lemma {:induction false} EmptyQueryKeepsAll(chats: seq<Chat>)
    ensures Filtered(chats, "") == chats
  {
    if chats != [] {
      var init, last := chats[..|chats| - 1], chats[|chats| - 1];
      MatchesEmpty(last);
      FilteredLast(chats, "");
      EmptyQueryKeepsAll(init);
      assert init + [last] == chats;
    }
  }

  /** The last chat is kept after the filtered others exactly when it matches. */
  lemma FilteredLast(chats: seq<Chat>, query: string)
    requires chats != []
    ensures var init, last := chats[..|chats| - 1], chats[|chats| - 1];
            Filtered(chats, query) == if Matches(last, query) then Filtered(init, query) + [last] else Filtered(init, query)
  {
  }

  /** The filter keeps chat order: it distributes over concatenation. */
  lemma {:induction false} FilteredAppend(a: seq<Chat>, b: seq<Chat>, query: string)
    ensures Filtered(a + b, query) == Filtered(a, query) + Filtered(b, query)
    decreases |b|
  {
    if b == [] {
      assert a + b == a;
    } else {
      var init := b[..|b| - 1];
      assert (a + b)[..|a + b| - 1] == a + init;
      FilteredAppend(a, init, query);
    }
  }

  /** pinnedChatsList and recentChatsList. */
  function Pinned(chats: seq<Chat>, pinned: set<string>, wanted: bool): (r: seq<Chat>)
    ensures forall c | c in r :: c in chats && (c.id in pinned <==> wanted)
    ensures forall c | c in chats && (c.id in pinned <==> wanted) :: c in r
  {
    if chats == [] then []
    else
      var rest := Pinned(chats[..|chats| - 1], pinned, wanted);
      if (chats[|chats| - 1].id in pinned) == wanted then rest + [chats[|chats| - 1]] else rest
  }

  /** The two lists split the filtered chats: every chat lands in exactly one
    * of them, with its multiplicity, and each keeps the filtered order. */
  lemma {:induction false} PartitionExact(chats: seq<Chat>, pinned: set<string>)
    ensures multiset(Pinned(chats, pinned, true)) + multiset(Pinned(chats, pinned, false)) == multiset(chats)
    ensures forall c | c in Pinned(chats, pinned, true) :: c !in Pinned(chats, pinned, false)
  {
    if chats != [] {
      var init := chats[..|chats| - 1];
      PartitionExact(init, pinned);
      assert chats == init + [chats[|chats| - 1]];
    }
  }

  /** Pinning a chat twice restores the set; it flips only that chat's pin. */
  function TogglePin(pinned: set<string>, id: string): (r: set<string>)
    ensures id in r <==> id !in pinned
    ensures forall other | other != id :: other in r <==> other in pinned
  {
    if id in pinned then pinned - {id} else pinned + {id}
  }

  lemma TogglePinTwice(pinned: set<string>, id: string)
    ensures TogglePin(TogglePin(pinned, id), id) == pinned
  {
  }

  datatype State = State(chats: seq<Chat>, editingId: Option<string>, editTitle: string,
                         deleteDialogOpen: bool, chatToDelete: Option<string>)

  /** The first chat with that id, if any. */
  function Find(chats: seq<Chat>, id: string): (r: Option<Chat>)
    ensures r.Some? ==> r.value in chats && r.value.id == id
    ensures r.None? ==> forall c | c in chats :: c.id != id
  {
    if chats == [] then None
    else if chats[0].id == id then Some(chats[0])
    else Find(chats[1..], id)
  }

  /** handleRename: edit a chat that exists, starting from its shown title. */
  function HandleRename(st: State, chatId: string): (r: State)
    ensures Find(st.chats, chatId).None? ==> r == st
    ensures Find(st.chats, chatId).Some? ==>
              r == st.(editingId := Some(chatId), editTitle := DisplayTitle(Find(st.chats, chatId).value))
  {
    match Find(st.chats, chatId)
    case None => st
    case Some(c) => st.(editingId := Some(chatId), editTitle := DisplayTitle(c))
  }

  /** The chat with the given id takes the new title; every other chat is kept. */
  function Renamed(chats: seq<Chat>, chatId: string, title: string): (r: seq<Chat>)
    ensures |r| == |chats|
    ensures forall i | 0 <= i < |chats| ::
              r[i] == if chats[i].id == chatId then chats[i].(title := Some(title)) else chats[i]
  {
    seq(|chats|, i requires 0 <= i < |chats| => if chats[i].id == chatId then chats[i].(title := Some(title)) else chats[i])
  }

  /** handleSaveRename: a blank title only leaves edit mode; any other title,
    * untrimmed, goes to the chats with that id, and a failed save restores
    * the given list. The flag says whether the parent was told to refresh. */
  function HandleSaveRename(st: State, chatId: string, props: seq<Chat>, ok: bool): (r: (State, bool))
    ensures r.0.editingId.None?
    ensures Text.AllSpace(st.editTitle) ==> r == (st.(editingId := None), false)
    ensures !Text.AllSpace(st.editTitle) && ok ==> r == (st.(editingId := None, chats := Renamed(st.chats, chatId, st.editTitle)), true)
    ensures !Text.AllSpace(st.editTitle) && !ok ==> r == (st.(editingId := None, chats := props), false)
  {
    Text.TrimEmptyIff(st.editTitle);
    if Text.Trim(st.editTitle) == "" then (st.(editingId := None), false)
    else if ok then (st.(editingId := None, chats := Renamed(st.chats, chatId, st.editTitle)), true)
    else (st.(editingId := None, chats := props), false)
  }

  /** The chats other than the deleted one, in order. */
  function WithoutChat(chats: seq<Chat>, id: string): (r: seq<Chat>)
    ensures |r| <= |chats|
    ensures forall c | c in r :: c in chats && c.id != id
    ensures forall c | c in chats && c.id != id :: c in r
  {
    if chats == [] then []
    else
      var rest := WithoutChat(chats[..|chats| - 1], id);
      if chats[|chats| - 1].id != id then rest + [chats[|chats| - 1]] else rest
  }

  function Route(c: Chat): string
  {
    "/workspace/" + c.sessionId + "?chat=" + c.id
  }

  /** What a confirmed delete does besides the new state. */
  datatype DeleteEffects = DeleteEffects(refreshed: bool, navigateTo: Option<string>)

  /** handleDeleteConfirm: with a chat selected, drop every chat with its id
    * and close the dialog; a failed delete restores the given list. When the
    * deleted id is the current session's, the page moves to the first chat
    * left, or, with none left, to the first chat's session before the delete
    * or the current one. The selection is cleared in every case but "none". */
  function HandleDeleteConfirm(st: State, sessionId: string, props: seq<Chat>, ok: bool): (r: (State, DeleteEffects))
    ensures st.chatToDelete.None? || st.chatToDelete == Some("") ==> r == (st, DeleteEffects(false, None))
    ensures st.chatToDelete.Some? && st.chatToDelete.value != "" ==>
              && !r.0.deleteDialogOpen && r.0.chatToDelete.None?
              && r.0.chats == (if ok then WithoutChat(st.chats, st.chatToDelete.value) else props)
              && r.1.refreshed == ok
              && (r.1.navigateTo.Some? <==> ok && st.chatToDelete.value == sessionId)
              && r.0.editingId == st.editingId && r.0.editTitle == st.editTitle
    ensures st.chatToDelete.Some? && st.chatToDelete.value != "" && ok && st.chatToDelete.value == sessionId ==>
              var remaining := WithoutChat(st.chats, sessionId);
              r.1.navigateTo == Some(if remaining != [] then Route(remaining[0])
                                     else "/workspace/" + (if st.chats != [] && st.chats[0].sessionId != ""
                                                           then st.chats[0].sessionId else sessionId))
  {
    match st.chatToDelete
    case None => (st, DeleteEffects(false, None))
    case Some(del) =>
      if del == "" then (st, DeleteEffects(false, None))
      else
        var remaining := WithoutChat(st.chats, del);
        var next := st.(deleteDialogOpen := false, chatToDelete := None);
        if !ok then (next.(chats := props), DeleteEffects(false, None))
        else
          var route :=
            if remaining != [] then Route(remaining[0])
            else "/workspace/" + (if st.chats != [] && st.chats[0].sessionId != "" then st.chats[0].sessionId else sessionId);
          (next.(chats := remaining), DeleteEffects(true, if del == sessionId then Some(route) else None))
  }

  /** Deleting the current chat while others remain moves the page to one of
    * them, never to the deleted chat. */
  lemma DeleteNavigatesAway(st: State, sessionId: string, props: seq<Chat>)
    requires st.chatToDelete == Some(sessionId) && sessionId != ""
    requires exists c | c in st.chats :: c.id != sessionId
    ensures exists c | c in st.chats && c.id != sessionId ::
              HandleDeleteConfirm(st, sessionId, props, true).1.navigateTo == Some(Route(c))
  {
    var c :| c in st.chats && c.id != sessionId;
    var remaining := WithoutChat(st.chats, sessionId);
    assert c in remaining;
    assert remaining[0] in remaining;
  }

  /** A chat with the deleted id is gone, every other chat stays. */
  lemma DeleteRemovesExactly(st: State, sessionId: string, props: seq<Chat>, c: Chat)
    requires st.chatToDelete.Some? && st.chatToDelete.value != ""
    ensures var r := HandleDeleteConfirm(st, sessionId, props, true).0;
            c in r.chats <==> c in st.chats && c.id != st.chatToDelete.value
  {
  }
}
