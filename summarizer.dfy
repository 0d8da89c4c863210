// The conversation summariser: a per-session cache of a textual summary and
// the history length it was computed from, refreshed every tenth message.
module Summarizer {
  import opened Wrappers
  import Text

  /** One entry of the conversation history: its role and its content, if any. */
  datatype Entry = Entry(role: string, content: Option<string>)

  const SummaryInterval: nat := 10
  const NoContext := "New session - no prior context"
  const SummaryIcon := "\U{1F4CB}"
  const PreviewLength: nat := 80
  const RecentCount: nat := 5
  const CompressThreshold: nat := 50

  /** `m.content?.includes(sub)` taken as a condition. */
  predicate Mentions(m: Entry, sub: string)
  {
    m.content.Some? && Text.Contains(m.content.value, sub)
  }

  /** The entries with a given role, in history order. */
  function WithRole(h: seq<Entry>, role: string): (r: seq<Entry>)
    ensures |r| <= |h|
    ensures forall i | 0 <= i < |r| :: r[i].role == role
  {
    if h == [] then []
    else
      var rest := WithRole(h[..|h| - 1], role);
      if h[|h| - 1].role == role then rest + [h[|h| - 1]] else rest
  }

  /** The entries kept are exactly the history's entries with that role. */
  lemma {:induction false} WithRoleMembers(h: seq<Entry>, role: string, m: Entry)
    ensures m in WithRole(h, role) <==> m in h && m.role == role
  {
    if h != [] {
      WithRoleMembers(h[..|h| - 1], role, m);
      assert h == h[..|h| - 1] + [h[|h| - 1]];
    }
  }

  /** Filtering by role distributes over concatenation, so it keeps history order. */
  lemma {:induction false} WithRoleAppend(a: seq<Entry>, b: seq<Entry>, role: string)
    ensures WithRole(a + b, role) == WithRole(a, role) + WithRole(b, role)
    decreases |b|
  {
    if b == [] {
      assert a + b == a;
    } else {
      var init := b[..|b| - 1];
      assert (a + b)[..|a + b| - 1] == a + init;
      WithRoleAppend(a, init, role);
    }
  }

  /** The number of entries satisfying `p`. */
  function CountIf(h: seq<Entry>, p: Entry -> bool): (n: nat)
    ensures n <= |h|
  {
    if h == [] then 0
    else CountIf(h[..|h| - 1], p) + (if p(h[|h| - 1]) then 1 else 0)
  }

  predicate MentionsSql(m: Entry) { Mentions(m, "SELECT") || Mentions(m, "sql") }
  predicate MentionsPython(m: Entry) { Mentions(m, "python") || Mentions(m, "statistical") }
  predicate MentionsInsight(m: Entry) { Mentions(m, "insight") || Mentions(m, "finding") }
  predicate MentionsAnalysis(m: Entry) { Mentions(m, "SELECT") || Mentions(m, "python") }

  /** `userQueries.slice(-5)`: the last five, or all when there are fewer. */
  function Recent(qs: seq<Entry>): (r: seq<Entry>)
    ensures |r| == if |qs| < RecentCount then |qs| else RecentCount
    ensures forall i | 0 <= i < |r| :: r[i] == qs[|qs| - |r| + i]
  {
    if |qs| <= RecentCount then qs else qs[|qs| - RecentCount..]
  }

  /** `query.content?.slice(0, 80) || ''`. */
  function Preview(m: Entry): (p: string)
    ensures |p| <= PreviewLength
    ensures m.content.Some? ==> Text.StartsWith(m.content.value, p)
    ensures m.content.Some? && |m.content.value| >= PreviewLength ==> |p| == PreviewLength
    ensures m.content.Some? && |m.content.value| < PreviewLength ==> p == m.content.value
    ensures m.content.None? ==> p == ""
  {
    match m.content
    case None => ""
    case Some(c) => if |c| <= PreviewLength then c else c[..PreviewLength]
  }

  /** The numbered line of one recent topic, marked "..." when the preview was cut at its limit. */
  function TopicLine(idx: nat, m: Entry): string
  {
    var p := Preview(m);
    Text.NatToString(idx + 1) + ". " + p + (if |p| >= PreviewLength then "..." else "")
  }

  lemma TopicLineEllipsis(idx: nat, m: Entry)
    ensures var line := TopicLine(idx, m);
            Text.EndsWith(line, "...") <== m.content.Some? && |m.content.value| >= PreviewLength
    ensures m.content.Some? && |m.content.value| < PreviewLength ==>
              TopicLine(idx, m) == Text.NatToString(idx + 1) + ". " + m.content.value
  {
    var line := TopicLine(idx, m);
    if m.content.Some? && |m.content.value| >= PreviewLength {
      assert line[|line| - 3..] == "...";
    }
  }

  const UserRole := "user"
  const AssistantRole := "assistant"

  const UserCaption := "User queries"
  const AssistantCaption := "Assistant responses"
  const SqlCaption := "SQL analyses"
  const PythonCaption := "Python analyses"
  const InsightCaption := "Insights generated"

  function TitleLine(n: nat): string
  {
    SummaryIcon + " SESSION SUMMARY (" + Text.NatToString(n) + " messages)"
  }

  /** `<caption>: <n>`. */
  function CountLine(caption: string, n: nat): string
  {
    caption + ": " + Text.NatToString(n)
  }

  /** The fixed head of the summary. */
  function Header(h: seq<Entry>): (lines: seq<string>)
    ensures |lines| == 8
  {
    [ TitleLine(|h|),
      "",
      CountLine(UserCaption, |WithRole(h, UserRole)|),
      CountLine(AssistantCaption, |WithRole(h, AssistantRole)|),
      CountLine(SqlCaption, CountIf(h, MentionsSql)),
      CountLine(PythonCaption, CountIf(h, MentionsPython)),
      CountLine(InsightCaption, CountIf(h, MentionsInsight)),
      "" ]
  }

  /** The numbered topic lines of `recent`, starting from `from`. */
  function TopicLines(recent: seq<Entry>, n: nat): (lines: seq<string>)
    requires n <= |recent|
    ensures |lines| == n
    ensures forall i | 0 <= i < n :: lines[i] == TopicLine(i, recent[i])
  {
    if n == 0 then [] else TopicLines(recent, n - 1) + [TopicLine(n - 1, recent[n - 1])]
  }

  /** "Recent topics:" and one line per recent query, or nothing when there is none. */
  function RecentBlock(recent: seq<Entry>): (lines: seq<string>)
    ensures recent == [] ==> lines == []
    ensures recent != [] ==> |lines| == |recent| + 1 && lines[0] == "Recent topics:"
                             && forall i | 0 <= i < |recent| :: lines[i + 1] == TopicLine(i, recent[i])
  {
    if recent == [] then [] else ["Recent topics:"] + TopicLines(recent, |recent|)
  }

  /** Every line of the summary of a non-empty history. */
  function SummaryParts(h: seq<Entry>): seq<string>
  {
    Header(h) + RecentBlock(Recent(WithRole(h, UserRole)))
  }

  /** The summary opens with the history length and the user and assistant counts. */
  lemma SummaryHeader(h: seq<Entry>)
    ensures var parts := SummaryParts(h);
            && |parts| >= 8
            && parts[0] == TitleLine(|h|)
            && parts[2] == CountLine(UserCaption, |WithRole(h, UserRole)|)
            && parts[3] == CountLine(AssistantCaption, |WithRole(h, AssistantRole)|)
  {
    HeaderLines(h);
    var parts := SummaryParts(h);
    assert forall i | 0 <= i < 8 :: parts[i] == Header(h)[i];
  }

  lemma HeaderLines(h: seq<Entry>)
    ensures var hd := Header(h);
            && hd[0] == TitleLine(|h|)
            && hd[2] == CountLine(UserCaption, |WithRole(h, UserRole)|)
            && hd[3] == CountLine(AssistantCaption, |WithRole(h, AssistantRole)|)
  {
  }

  /** After the eight head lines comes the block of recent topics: "Recent
    * topics:" and one line per recent user query, in order, or nothing when the
    * history has no user query. */
  lemma SummaryTopics(h: seq<Entry>)
    ensures |SummaryParts(h)| >= 8 && SummaryParts(h)[8..] == RecentBlock(Recent(WithRole(h, UserRole)))
  {
    var hd := Header(h);
    var block := RecentBlock(Recent(WithRole(h, UserRole)));
    assert (hd + block)[|hd|..] == block;
  }

  /** isSummaryText: what a cached summary always looks like. */
  predicate IsSummaryText(s: string)
  {
    Text.StartsWith(s, SummaryIcon)
  }

  lemma SummaryTextStartsWithIcon(h: seq<Entry>)
    ensures IsSummaryText(Text.Join(SummaryParts(h), "\n"))
  {
    var parts := SummaryParts(h);
    Text.JoinStartsWith(parts, "\n");
    assert parts[0] == TitleLine(|h|);
    assert parts[0][..|SummaryIcon|] == SummaryIcon;
  }

  /** needsSummarization: a positive count that is a multiple of the interval
    * (`n % 0` is NaN in JavaScript and never equals 0). */
  function NeedsSummarization(n: nat, interval: nat): (b: bool)
    ensures b ==> interval > 0 && n >= interval
    ensures interval > 0 ==> (b <==> n > 0 && n % interval == 0)
  {
    if interval == 0 then false else n > 0 && n % interval == 0
  }

  /** The lines of the summary, pushed one by one as updateSummary does. */
  method BuildSummaryParts(history: seq<Entry>) returns (parts: seq<string>)
    ensures parts == SummaryParts(history)
  {
    var userQueries := WithRole(history, UserRole);
    parts := Header(history);
    var recent := Recent(userQueries);
    SummaryPartsSplit(history, parts, recent);
    if |recent| > 0 {
      parts := PushTopics(parts + ["Recent topics:"], recent);
    }
  }

  /** The summary is the head, then "Recent topics:" and the numbered lines
    * when there is a recent query. */
  lemma SummaryPartsSplit(h: seq<Entry>, head: seq<string>, recent: seq<Entry>)
    requires head == Header(h) && recent == Recent(WithRole(h, UserRole))
    ensures recent == [] ==> SummaryParts(h) == head
    ensures recent != [] ==> SummaryParts(h) == head + ["Recent topics:"] + TopicLines(recent, |recent|)
  {
    if recent == [] {
      assert SummaryParts(h) == head + [];
    } else {
      assert SummaryParts(h) == head + (["Recent topics:"] + TopicLines(recent, |recent|));
    }
  }

  /** The numbered topic lines pushed after `parts`, one per recent query. */
  method PushTopics(parts0: seq<string>, recent: seq<Entry>) returns (parts: seq<string>)
    ensures parts == parts0 + TopicLines(recent, |recent|)
  {
    parts := parts0;
    var idx := 0;
    while idx < |recent|
      invariant 0 <= idx <= |recent|
      invariant parts == parts0 + TopicLines(recent, idx)
    {
      PushTopic(parts0, recent, idx);
      parts := parts + [TopicLine(idx, recent[idx])];
      idx := idx + 1;
    }
  }

  /** Pushing the next topic line extends the numbered lines by one. */
  lemma PushTopic(prefix: seq<string>, recent: seq<Entry>, idx: nat)
    requires idx < |recent|
    ensures prefix + TopicLines(recent, idx) + [TopicLine(idx, recent[idx])] == prefix + TopicLines(recent, idx + 1)
  {
    var t := TopicLines(recent, idx);
    assert TopicLines(recent, idx + 1) == t + [TopicLine(idx, recent[idx])];
    assert prefix + t + [TopicLine(idx, recent[idx])] == prefix + (t + [TopicLine(idx, recent[idx])]);
  }

  class ConversationSummarizer {
    const sessionId: string
    var summaryCache: string
    var lastSummaryMessageCount: nat

    /** The cache is empty or a summary text. */
    ghost predicate Valid()
      reads this
    {
      summaryCache == "" || IsSummaryText(summaryCache)
    }

    constructor(sessionId: string)
      ensures Valid()
      ensures this.sessionId == sessionId && summaryCache == "" && lastSummaryMessageCount == 0
    {
      this.sessionId := sessionId;
      summaryCache := "";
      lastSummaryMessageCount := 0;
    }

    /** A refresh is due at every positive multiple of ten not yet summarised. */
    function ShouldUpdateSummary(messageCount: nat): (b: bool)
      reads this
      ensures b <==> NeedsSummarization(messageCount, SummaryInterval) && messageCount != lastSummaryMessageCount
    {
      if messageCount == 0 then false
      else messageCount > 0 && messageCount % SummaryInterval == 0 && messageCount != lastSummaryMessageCount
    }

    /** An empty history clears the cache and keeps the count; any other
      * history is summarised and its length recorded. */
    method UpdateSummary(history: seq<Entry>)
      requires Valid()
      modifies this
      ensures Valid()
      ensures history == [] ==> summaryCache == "" && lastSummaryMessageCount == old(lastSummaryMessageCount)
      ensures history != [] ==> summaryCache == Text.Join(SummaryParts(history), "\n")
                                && lastSummaryMessageCount == |history|
      ensures history != [] ==> !ShouldUpdateSummary(|history|)
    {
      if |history| == 0 {
        summaryCache := "";
        return;
      }
      var parts := BuildSummaryParts(history);
      summaryCache := Text.Join(parts, "\n");
      lastSummaryMessageCount := |history|;
      SummaryTextStartsWithIcon(history);
    }

    /** The cached summary, or the no-context text exactly when there is none. */
    function GetSummaryForContext(): (s: string)
      requires Valid()
      reads this
      ensures s == NoContext <==> summaryCache == ""
      ensures summaryCache != "" ==> s == summaryCache
    {
      assert NoContext[0] == 'N' && NoContext[..|SummaryIcon|][0] == 'N';
      if summaryCache == "" then NoContext else summaryCache
    }

    /** (messageCount, lastUpdated, hasSummary). */
    function GetSummaryStats(): (st: (nat, nat, bool))
      reads this
      ensures st.0 == lastSummaryMessageCount && st.1 == lastSummaryMessageCount
      ensures st.2 <==> summaryCache != ""
    {
      (lastSummaryMessageCount, lastSummaryMessageCount, |summaryCache| > 0)
    }

    method ClearSummary()
      modifies this
      ensures Valid() && summaryCache == "" && lastSummaryMessageCount == 0
    {
      summaryCache := "";
      lastSummaryMessageCount := 0;
    }

    /** Below fifty messages the cached summary, otherwise a one-line digest. */
    function CreateCompressedSummary(fullHistory: seq<Entry>): (s: string)
      reads this
      ensures |fullHistory| < CompressThreshold ==> s == summaryCache
      ensures |fullHistory| >= CompressThreshold ==>
                Text.StartsWith(s, "Long session: " + Text.NatToString(|fullHistory|) + " messages, ")
                && s == "Long session: " + Text.NatToString(|fullHistory|) + " messages, "
                        + Text.NatToString(|WithRole(fullHistory, UserRole)|) + " queries, "
                        + Text.NatToString(CountIf(fullHistory, MentionsAnalysis))
                        + " analyses performed. Recent context available in full summary."
    {
      if |fullHistory| < CompressThreshold then summaryCache
      else
        var head := "Long session: " + Text.NatToString(|fullHistory|) + " messages, ";
        var s := head + Text.NatToString(|WithRole(fullHistory, UserRole)|) + " queries, "
                 + Text.NatToString(CountIf(fullHistory, MentionsAnalysis))
                 + " analyses performed. Recent context available in full summary.";
        assert s[..|head|] == head;
        s
    }
  }
}
