// The chat store: sessions, their messages and the streaming flag. Every
// action is a pure next-state function; `Date.now()` is the parameter `now`,
// from which the store derives both ids and timestamps.
module ChatStore {
  import opened Wrappers
  import Text

  datatype MessageType = User | Orchestrator | Sql | Python | System

  datatype Message = Message(id: string, sessionId: string, kind: MessageType, content: string, timestamp: nat)

  /** What addMessage is given: a message without its id and timestamp. */
  datatype NewMessage = NewMessage(sessionId: string, kind: MessageType, content: string)

  datatype ChatSession = ChatSession(id: string, title: string, datasetId: string, createdAt: nat, updatedAt: nat,
                                     messageCount: int)

  /** `Partial<Message>`: the fields an update names; an absent field is `None`. */
  datatype MessagePatch = MessagePatch(id: Option<string>, sessionId: Option<string>, kind: Option<MessageType>,
                                       content: Option<string>, timestamp: Option<nat>)

  /** The fields of a session an update names; an absent field is `None`. */
  datatype SessionPatch = SessionPatch(id: Option<string>, title: Option<string>, datasetId: Option<string>,
                                       createdAt: Option<nat>, updatedAt: Option<nat>, messageCount: Option<int>)

  datatype State = State(sessions: seq<ChatSession>, activeSessionId: Option<string>, messages: seq<Message>,
                         isStreaming: bool, streamingMessageId: Option<string>)

  const Initial := State([], None, [], false, None)
  const DefaultTitle := "New Analysis"
  const TitleLength := 50

  function SessionId(now: nat): string
  {
    "session_" + Text.NatToString(now)
  }

  function MessageId(now: nat): string
  {
    "msg_" + Text.NatToString(now)
  }

  /** createSession: the new session goes first and becomes active; the
    * result is its id. */
  function CreateSession(st: State, datasetId: string, now: nat): (r: (State, string))
    ensures r.1 == SessionId(now)
    ensures |r.0.sessions| == |st.sessions| + 1 && r.0.sessions[1..] == st.sessions
    ensures r.0.sessions[0] == ChatSession(r.1, DefaultTitle, datasetId, now, now, 0)
    ensures r.0.activeSessionId == Some(r.1)
    ensures r.0.messages == st.messages && r.0.isStreaming == st.isStreaming
    ensures r.0.streamingMessageId == st.streamingMessageId
  {
    var id := SessionId(now);
    (st.(sessions := [ChatSession(id, DefaultTitle, datasetId, now, now, 0)] + st.sessions, activeSessionId := Some(id)), id)
  }

  function SetActiveSession(st: State, sessionId: string): (r: State)
    ensures r.activeSessionId == Some(sessionId) && r.(activeSessionId := st.activeSessionId) == st
  {
    st.(activeSessionId := Some(sessionId))
  }

  /** The title a first user message gives its session: its first 50
    * characters, with "..." when it is longer. */
  function TitleFrom(content: string): (t: string)
    ensures |content| <= TitleLength ==> t == content
    ensures |content| > TitleLength ==> t == content[..TitleLength] + "..."
  {
    content[..if |content| < TitleLength then |content| else TitleLength] + (if |content| > TitleLength then "..." else "")
  }

  /** The title is never longer than 53 characters, and starts with the message. */
  lemma TitleBounded(content: string)
    ensures |TitleFrom(content)| <= TitleLength + 3
    ensures Text.StartsWith(TitleFrom(content), content[..if |content| < TitleLength then |content| else TitleLength])
  {
  }

  /** One session's update for a new message. */
  function Bump(s: ChatSession, m: NewMessage, now: nat): ChatSession
  {
    if s.id == m.sessionId then
      s.(messageCount := s.messageCount + 1, updatedAt := now,
         title := if s.messageCount == 0 && m.kind == User then TitleFrom(m.content) else s.title)
    else s
  }

  /** addMessage: the message, with its id and timestamp, goes last; the
    * sessions with its session id count it, and take their title from it
    * when it is their first message and a user's. */
  function AddMessage(st: State, m: NewMessage, now: nat): (r: State)
    ensures r.messages == st.messages + [Message(MessageId(now), m.sessionId, m.kind, m.content, now)]
    ensures |r.sessions| == |st.sessions|
    ensures forall i | 0 <= i < |st.sessions| ::
              var s := st.sessions[i];
              if s.id != m.sessionId then r.sessions[i] == s
              else && r.sessions[i].messageCount == s.messageCount + 1 && r.sessions[i].updatedAt == now
                   && r.sessions[i].title == (if s.messageCount == 0 && m.kind == User then TitleFrom(m.content) else s.title)
                   && r.sessions[i].(messageCount := s.messageCount, updatedAt := s.updatedAt, title := s.title) == s
    ensures r.activeSessionId == st.activeSessionId && r.isStreaming == st.isStreaming
    ensures r.streamingMessageId == st.streamingMessageId
  {
    var sessions := seq(|st.sessions|, i requires 0 <= i < |st.sessions| => Bump(st.sessions[i], m, now));
    st.(messages := st.messages + [Message(MessageId(now), m.sessionId, m.kind, m.content, now)], sessions := sessions)
  }

  /** A message for a session the store does not know is still kept, and no
    * session changes. */
  lemma AddMessageUnknownSession(st: State, m: NewMessage, now: nat)
    requires forall i | 0 <= i < |st.sessions| :: st.sessions[i].id != m.sessionId
    ensures AddMessage(st, m, now).sessions == st.sessions
    ensures |AddMessage(st, m, now).messages| == |st.messages| + 1
  {
  }

  /** A message with each field the update names replaced. */
  function PatchMessage(msg: Message, u: MessagePatch): Message
  {
    Message(u.id.GetOr(msg.id), u.sessionId.GetOr(msg.sessionId), u.kind.GetOr(msg.kind),
            u.content.GetOr(msg.content), u.timestamp.GetOr(msg.timestamp))
  }

  /** updateMessage: only the messages with that id take the update. */
  function UpdateMessage(st: State, id: string, u: MessagePatch): (r: State)
    ensures |r.messages| == |st.messages|
    ensures forall i | 0 <= i < |st.messages| ::
              r.messages[i] == if st.messages[i].id == id then PatchMessage(st.messages[i], u) else st.messages[i]
    ensures r.(messages := st.messages) == st
  {
    st.(messages := seq(|st.messages|, i requires 0 <= i < |st.messages| =>
                          if st.messages[i].id == id then PatchMessage(st.messages[i], u) else st.messages[i]))
  }

  /** A patch changes exactly the fields it names. */
  lemma PatchNamesFields(msg: Message, u: MessagePatch)
    ensures u.content.Some? ==> PatchMessage(msg, u).content == u.content.value
    ensures u.content.None? ==> PatchMessage(msg, u).content == msg.content
    ensures u.sessionId.None? ==> PatchMessage(msg, u).sessionId == msg.sessionId
    ensures u == MessagePatch(None, None, None, None, None) ==> PatchMessage(msg, u) == msg
  {
  }

  /** `{ ...s, ...updates, updatedAt: new Date() }`: the timestamp wins over
    * any updatedAt in the update. */
  function PatchSession(s: ChatSession, u: SessionPatch, now: nat): ChatSession
  {
    ChatSession(u.id.GetOr(s.id), u.title.GetOr(s.title), u.datasetId.GetOr(s.datasetId),
                u.createdAt.GetOr(s.createdAt), now, u.messageCount.GetOr(s.messageCount))
  }

  /** updateSession: only the sessions with that id take the update. */
  function UpdateSession(st: State, id: string, u: SessionPatch, now: nat): (r: State)
    ensures |r.sessions| == |st.sessions|
    ensures forall i | 0 <= i < |st.sessions| ::
              r.sessions[i] == if st.sessions[i].id == id then PatchSession(st.sessions[i], u, now) else st.sessions[i]
    ensures forall i | 0 <= i < |st.sessions| && st.sessions[i].id == id :: r.sessions[i].updatedAt == now
    ensures r.(sessions := st.sessions) == st
  {
    st.(sessions := seq(|st.sessions|, i requires 0 <= i < |st.sessions| =>
                          if st.sessions[i].id == id then PatchSession(st.sessions[i], u, now) else st.sessions[i]))
  }

  /** The messages of one session, in stored order. */
  function ForSession(ms: seq<Message>, sessionId: string): (r: seq<Message>)
    ensures |r| <= |ms|
    ensures forall m | m in r :: m in ms && m.sessionId == sessionId
    ensures forall m | m in ms && m.sessionId == sessionId :: m in r
  {
    if ms == [] then []
    else
      var rest := ForSession(ms[..|ms| - 1], sessionId);
      if ms[|ms| - 1].sessionId == sessionId then rest + [ms[|ms| - 1]] else rest
  }

  /** A session no message names has none. */
  lemma ForSessionNone(ms: seq<Message>, sessionId: string)
    requires forall m | m in ms :: m.sessionId != sessionId
    ensures ForSession(ms, sessionId) == []
  {
  }

  /** The filter keeps message order: it distributes over concatenation. */
  lemma {:induction false} ForSessionAppend(a: seq<Message>, b: seq<Message>, sessionId: string)
    ensures ForSession(a + b, sessionId) == ForSession(a, sessionId) + ForSession(b, sessionId)
    decreases |b|
  {
    if b == [] {
      assert a + b == a;
    } else {
      var init := b[..|b| - 1];
      assert (a + b)[..|a + b| - 1] == a + init;
      ForSessionAppend(a, init, sessionId);
    }
  }

  /** getSessionMessages: the messages of one session, in store order. */
  function GetSessionMessages(st: State, sessionId: string): (r: seq<Message>)
    ensures forall m :: m in r <==> m in st.messages && m.sessionId == sessionId
  {
    ForSession(st.messages, sessionId)
  }

  /** A message added to a session is its last one; other sessions' messages
    * are unchanged. */
  lemma AddThenGet(st: State, m: NewMessage, now: nat, sessionId: string)
    ensures var added := Message(MessageId(now), m.sessionId, m.kind, m.content, now);
            GetSessionMessages(AddMessage(st, m, now), sessionId)
              == GetSessionMessages(st, sessionId) + (if m.sessionId == sessionId then [added] else [])
  {
    var added := Message(MessageId(now), m.sessionId, m.kind, m.content, now);
    assert (st.messages + [added])[..|st.messages|] == st.messages;
  }

  /** setStreaming: an absent or empty message id is stored as null. */
  function SetStreaming(st: State, isStreaming: bool, messageId: Option<string>): (r: State)
    ensures r.isStreaming == isStreaming
    ensures r.streamingMessageId.Some? <==> messageId.Some? && messageId.value != ""
    ensures r.streamingMessageId.Some? ==> r.streamingMessageId == messageId
    ensures r.(isStreaming := st.isStreaming, streamingMessageId := st.streamingMessageId) == st
  {
    st.(isStreaming := isStreaming,
        streamingMessageId := if messageId.Some? && messageId.value != "" then messageId else None)
  }

  /** The messages of every other session, in stored order. */
  function WithoutSession(ms: seq<Message>, sessionId: string): (r: seq<Message>)
    ensures |r| <= |ms|
    ensures forall m | m in r :: m in ms && m.sessionId != sessionId
    ensures forall m | m in ms && m.sessionId != sessionId :: m in r
  {
    if ms == [] then []
    else
      var rest := WithoutSession(ms[..|ms| - 1], sessionId);
      if ms[|ms| - 1].sessionId != sessionId then rest + [ms[|ms| - 1]] else rest
  }

  /** The sessions other than the given one, in stored order. */
  function OtherSessions(ss: seq<ChatSession>, sessionId: string): (r: seq<ChatSession>)
    ensures |r| <= |ss|
    ensures forall s | s in r :: s in ss && s.id != sessionId
    ensures forall s | s in ss && s.id != sessionId :: s in r
  {
    if ss == [] then []
    else
      var rest := OtherSessions(ss[..|ss| - 1], sessionId);
      if ss[|ss| - 1].id != sessionId then rest + [ss[|ss| - 1]] else rest
  }

  /** clearSession: the session and its messages go; the active session is
    * cleared only when it was that one. */
  function ClearSession(st: State, sessionId: string): (r: State)
    ensures r.messages == WithoutSession(st.messages, sessionId)
    ensures r.sessions == OtherSessions(st.sessions, sessionId)
    ensures r.activeSessionId == if st.activeSessionId == Some(sessionId) then None else st.activeSessionId
    ensures r.isStreaming == st.isStreaming && r.streamingMessageId == st.streamingMessageId
  {
    st.(messages := WithoutSession(st.messages, sessionId), sessions := OtherSessions(st.sessions, sessionId),
        activeSessionId := if st.activeSessionId == Some(sessionId) then None else st.activeSessionId)
  }

  /** Clearing leaves the session with no messages and every other session
    * with exactly the messages it had, in order. */
  lemma {:induction false} ClearKeepsOthers(ms: seq<Message>, sessionId: string, other: string)
    ensures ForSession(WithoutSession(ms, sessionId), sessionId) == []
    ensures other != sessionId ==> ForSession(WithoutSession(ms, sessionId), other) == ForSession(ms, other)
  {
    if ms != [] {
      ClearKeepsOthers(ms[..|ms| - 1], sessionId, other);
      var init := ms[..|ms| - 1];
      var last := ms[|ms| - 1];
      if last.sessionId != sessionId {
        var w := WithoutSession(init, sessionId);
        assert WithoutSession(ms, sessionId) == w + [last];
        assert (w + [last])[..|w|] == w;
      }
    }
  }

  lemma ClearSessionEffect(st: State, sessionId: string, other: string)
    ensures GetSessionMessages(ClearSession(st, sessionId), sessionId) == []
    ensures other != sessionId ==>
              GetSessionMessages(ClearSession(st, sessionId), other) == GetSessionMessages(st, other)
    ensures forall s | s in ClearSession(st, sessionId).sessions :: s.id != sessionId
  {
    ClearKeepsOthers(st.messages, sessionId, other);
  }

  /** Every session's count is the number of its messages. */
  predicate Counted(st: State)
  {
    forall i | 0 <= i < |st.sessions| :: st.sessions[i].messageCount == |ForSession(st.messages, st.sessions[i].id)|
  }

  /** Adding a message keeps the counts right, whichever session it is for. */
  lemma AddMessageCounted(st: State, m: NewMessage, now: nat)
    requires Counted(st)
    ensures Counted(AddMessage(st, m, now))
  {
    var r := AddMessage(st, m, now);
    forall i | 0 <= i < |r.sessions|
      ensures r.sessions[i].messageCount == |ForSession(r.messages, r.sessions[i].id)|
    {
      AddThenGet(st, m, now, st.sessions[i].id);
    }
  }

  /** Creating a session whose id no message carries keeps the counts right. */
  lemma CreateSessionCounted(st: State, datasetId: string, now: nat)
    requires Counted(st)
    requires forall m | m in st.messages :: m.sessionId != SessionId(now)
    ensures Counted(CreateSession(st, datasetId, now).0)
  {
    var r := CreateSession(st, datasetId, now).0;
    forall i | 0 <= i < |r.sessions|
      ensures r.sessions[i].messageCount == |ForSession(r.messages, r.sessions[i].id)|
    {
      if i > 0 {
        assert r.sessions[i] == st.sessions[i - 1];
      } else {
        ForSessionNone(st.messages, SessionId(now));
      }
    }
  }

  /** Clearing a session keeps the counts of the others right. */
  lemma ClearSessionCounted(st: State, sessionId: string)
    requires Counted(st)
    ensures Counted(ClearSession(st, sessionId))
  {
    var r := ClearSession(st, sessionId);
    forall i | 0 <= i < |r.sessions|
      ensures r.sessions[i].messageCount == |ForSession(r.messages, r.sessions[i].id)|
    {
      var s := r.sessions[i];
      assert s in r.sessions;
      var j :| 0 <= j < |st.sessions| && st.sessions[j] == s;
      ClearKeepsOthers(st.messages, sessionId, s.id);
    }
  }

  /** The empty store is consistent. */
  lemma InitialCounted()
    ensures Counted(Initial) && Initial.activeSessionId.None?
  {
  }
}
