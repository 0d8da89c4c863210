// The rules the rich markdown renderer applies to an answer before drawing
// it: the `**Label**: value` stat lines it lifts out of the text, the split
// of those stats into a highlight and a grid, and the markers that put the
// answer in an insight card. The stat pattern is the regular expression
// ^\*\*(.+?)\*\*:\s*(.+)$ applied to each trimmed line; its meaning is given
// by `MatchesAt` below.
module RichMarkdown {
  import opened Wrappers
  import Text

  datatype Stat = Stat(labelText: string, value: string)

  /** The characters `.` does not match in a JavaScript regular expression. */
  predicate IsLineTerminator(c: char)
  {
    c == '\n' || c == '\r' || c == '\U{2028}' || c == '\U{2029}'
  }

  predicate NoTerminator(s: string)
  {
    forall i | 0 <= i < |s| :: !IsLineTerminator(s[i])
  }

  const Opener := "**"
  const Closer := "**:"

  /** The regular expression matches `t` with its label ending at `k` and
    * `\s*` consuming the `w` characters after the closer. */
  predicate MatchesAt(t: string, k: nat, w: nat)
  {
    && 3 <= k && k + 3 + w < |t|
    && t[..2] == Opener && t[k..k + 3] == Closer
    && NoTerminator(t[2..k])
    && Text.AllSpace(t[k + 3..k + 3 + w])
    && NoTerminator(t[k + 3 + w..])
  }

  /** What follows the closer can be matched by `\s*(.+)$`. */
  predicate RestOk(r: string)
  {
    Text.LeadingSpace(r) < |r| && NoTerminator(r[Text.LeadingSpace(r)..])
  }

  /** A closer at `k` that the rest of the line lets the match end at. */
  predicate Closes(t: string, k: nat)
  {
    3 <= k && k + 3 < |t| && t[k..k + 3] == Closer && NoTerminator(t[2..k]) && RestOk(t[k + 3..])
  }

  /** The lazy `(.+?)`: the first closer from `k` on that lets the match succeed. */
  function LabelEnd(t: string, k: nat): (e: Option<nat>)
    requires 3 <= k
    ensures e.Some? ==> k <= e.value && Closes(t, e.value)
    decreases |t| - k
  {
    if k + 3 >= |t| then None
    else if Closes(t, k) then Some(k)
    else LabelEnd(t, k + 1)
  }

  /** No closer before the one LabelEnd finds admits a match ... */
  lemma {:induction false} LabelEndFirst(t: string, k: nat, j: nat)
    requires 3 <= k <= j && Closes(t, j)
    ensures LabelEnd(t, k).Some? && LabelEnd(t, k).value <= j
    decreases j - k
  {
    if !Closes(t, k) {
      LabelEndFirst(t, k + 1, j);
    }
  }

  /** The stat a trimmed line yields, if the pattern matches it. */
  function StatOf(t: string): Option<Stat>
  {
    if |t| >= 2 && t[..2] == Opener then
      match LabelEnd(t, 3)
      case Some(k) => Some(Stat(t[2..k], Text.Trim(t[k + 3..])))
      case None => None
    else None
  }

  /** When `\s*(.+)$` matches with `\s*` taking `w` characters of a text that
    * does not end in whitespace, RestOk holds and the greedy choice takes at
    * least as many. */
  lemma RestOkFrom(r: string, w: nat)
    requires r == [] || !Text.IsSpace(r[|r| - 1])
    requires w < |r| && Text.AllSpace(r[..w]) && NoTerminator(r[w..])
    ensures RestOk(r) && w <= Text.LeadingSpace(r)
  {
    Text.LeadingSpaceAtLeast(r, w);
    Text.LeadingSpaceShort(r);
    NoTerminatorSuffix(r, w, Text.LeadingSpace(r));
  }

  /** A suffix of a text without line terminators has none. */
  lemma NoTerminatorSuffix(r: string, w: nat, g: nat)
    requires w <= g <= |r| && NoTerminator(r[w..])
    ensures NoTerminator(r[g..])
  {
    forall i | 0 <= i < |r| - g
      ensures !IsLineTerminator(r[g..][i])
    {
      assert r[g..][i] == r[w..][g - w + i];
    }
  }

  /** A closer StatOf accepts is a match, with `\s*` taking the leading
    * whitespace after it. */
  lemma ClosesMatches(t: string, k: nat)
    requires Closes(t, k) && t[..2] == Opener
    ensures MatchesAt(t, k, Text.LeadingSpace(t[k + 3..]))
  {
    var r := t[k + 3..];
    var w := Text.LeadingSpace(r);
    assert r[..w] == t[k + 3..k + 3 + w];
    assert r[w..] == t[k + 3 + w..];
  }

  /** Every stat StatOf yields is a match of the regular expression, and its
    * label is what `(.+?)` captures. */
  lemma StatOfSound(t: string)
    requires StatOf(t).Some?
    ensures var k := LabelEnd(t, 3).value;
            && MatchesAt(t, k, Text.LeadingSpace(t[k + 3..]))
            && StatOf(t).value.labelText == t[2..k]
  {
    ClosesMatches(t, LabelEnd(t, 3).value);
  }

  /** The value StatOf takes is the rest of the line after the closer, trimmed. */
  lemma StatOfValue(t: string, k: nat)
    requires |t| >= 2 && t[..2] == Opener && LabelEnd(t, 3) == Some(k)
    ensures StatOf(t) == Some(Stat(t[2..k], Text.Trim(t[k + 3..])))
  {
  }

  /** A match on a line that does not end in whitespace has an accepted closer
    * at its label's end. */
  lemma MatchCloses(t: string, k: nat, w: nat)
    requires t == [] || !Text.IsSpace(t[|t| - 1])
    requires MatchesAt(t, k, w)
    ensures Closes(t, k) && w <= Text.LeadingSpace(t[k + 3..])
    ensures Text.AllSpace(t[k + 3..][..w]) && t[k + 3..][w..] == t[k + 3 + w..]
  {
    var r := t[k + 3..];
    assert r[..w] == t[k + 3..k + 3 + w];
    assert r[w..] == t[k + 3 + w..];
    assert r[|r| - 1] == t[|t| - 1];
    RestOkFrom(r, w);
  }

  /** Every match of the regular expression on a trimmed line is found: the
    * label StatOf takes is the shortest (lazy) one, no match with that label
    * lets `\s*` take more than it does (greedy), and the value is the trimmed
    * capture of `(.+)` whatever `\s*` takes. */
  lemma StatOfComplete(t: string, k: nat, w: nat)
    requires t == [] || !Text.IsSpace(t[|t| - 1])
    requires MatchesAt(t, k, w)
    ensures StatOf(t).Some? && LabelEnd(t, 3).value <= k
    ensures LabelEnd(t, 3).value == k ==> && w <= Text.LeadingSpace(t[k + 3..])
                                          && StatOf(t).value.value == Text.Trim(t[k + 3 + w..])
  {
    StatOfFound(t, k, w);
    if LabelEnd(t, 3).value == k {
      StatOfGreedy(t, k, w);
    }
  }

  /** The lazy half: some closer no later than the match's is accepted. */
  lemma StatOfFound(t: string, k: nat, w: nat)
    requires t == [] || !Text.IsSpace(t[|t| - 1])
    requires MatchesAt(t, k, w)
    ensures StatOf(t).Some? && LabelEnd(t, 3).value <= k
  {
    MatchCloses(t, k, w);
    LabelEndFirst(t, 3, k);
  }

  /** The greedy half: with the match's own label, `\s*` takes no more than
    * StatOf trims away, and the values agree. */
  lemma StatOfGreedy(t: string, k: nat, w: nat)
    requires t == [] || !Text.IsSpace(t[|t| - 1])
    requires MatchesAt(t, k, w)
    requires LabelEnd(t, 3) == Some(k)
    ensures w <= Text.LeadingSpace(t[k + 3..]) && StatOf(t).value.value == Text.Trim(t[k + 3 + w..])
  {
    MatchCloses(t, k, w);
    StatOfValue(t, k);
    Text.TrimDropSpace(t[k + 3..], w);
  }

  /** The stat of one line, trimmed first. */
  function LineStat(line: string): (r: seq<Stat>)
    ensures |r| <= 1
  {
    var m := StatOf(Text.Trim(line));
    if m.Some? then [m.value] else []
  }

  /** The pieces `f` gives each element, concatenated in order. */
  function FlatMap<T, U>(xs: seq<T>, f: T -> seq<U>): seq<U>
  {
    if xs == [] then [] else FlatMap(xs[..|xs| - 1], f) + f(xs[|xs| - 1])
  }

  lemma {:induction false} FlatMapAppend<T, U>(a: seq<T>, b: seq<T>, f: T -> seq<U>)
    ensures FlatMap(a + b, f) == FlatMap(a, f) + FlatMap(b, f)
  {
    if b == [] {
      assert a + b == a;
    } else {
      var b' := b[..|b| - 1];
      FlatMapAppend(a, b', f);
      var ab := a + b;
      assert ab[..|ab| - 1] == a + b';
      assert ab[|ab| - 1] == b[|b| - 1];
    }
  }

  /** The stats of a sequence of lines, in line order. */
  function StatsOf(lines: seq<string>): seq<Stat>
  {
    FlatMap(lines, LineStat)
  }

  /** Stats of consecutive runs of lines concatenate, so each line contributes
    * its own stat, in place, and a line that does not match contributes nothing. */
  lemma StatsOfAppend(a: seq<string>, b: seq<string>)
    ensures StatsOf(a + b) == StatsOf(a) + StatsOf(b)
  {
    FlatMapAppend(a, b, LineStat);
  }

  /** A single line contributes its own stat, if any. */
  lemma StatsOfOne(line: string)
    ensures StatsOf([line]) == LineStat(line)
  {
    assert [line][..0] == [];
    assert FlatMap([line], LineStat) == FlatMap([], LineStat) + LineStat(line);
  }

  /** One more line adds its stat, if any, at the end. */
  lemma StatsOfPrefix(lines: seq<string>, i: nat)
    requires i < |lines|
    ensures StatsOf(lines[..i + 1]) == StatsOf(lines[..i]) + LineStat(lines[i])
  {
    var p := lines[..i + 1];
    assert p[..i] == lines[..i];
    assert p[i] == lines[i];
  }

  /** extractStats: the trimmed lines' stats, collected in a loop. */
  method ExtractStats(text: string) returns (stats: seq<Stat>)
    ensures stats == StatsOf(Text.Split(text, '\n'))
    ensures |stats| <= |Text.Split(text, '\n')|
  {
    var lines := Text.Split(text, '\n');
    stats := [];
    for i := 0 to |lines|
      invariant stats == StatsOf(lines[..i])
      invariant |stats| <= i
    {
      stats := stats + LineStat(lines[i]);
      StatsOfPrefix(lines, i);
    }
    assert lines[..|lines|] == lines;
  }

  /** The highlight is the first stat; the grid the others, or the single stat
    * again when there is only one. */
  function Layout(all: seq<Stat>): (r: (Option<Stat>, seq<Stat>))
    ensures r.0.Some? <==> |all| > 0
    ensures r.0.Some? ==> r.0.value == all[0]
    ensures |all| >= 2 ==> [r.0.value] + r.1 == all
    ensures |all| <= 1 ==> r.1 == all
  {
    (if |all| > 0 then Some(all[0]) else None, if |all| > 1 then all[1..] else all)
  }

  const InsightPatterns := ["Maximum Amount", "Based on the Data DNA", "INSIGHTX LEAD", "Additional Context"]

  /** An answer is shown in the insight card when it mentions any of the four
    * patterns anywhere. */
  predicate IsInsightResponse(content: string): (b: bool)
    ensures b <==> Text.Contains(content, "Maximum Amount") || Text.Contains(content, "Based on the Data DNA")
                   || Text.Contains(content, "INSIGHTX LEAD") || Text.Contains(content, "Additional Context")
  {
    assert InsightPatterns[0] == "Maximum Amount" && InsightPatterns[1] == "Based on the Data DNA"
           && InsightPatterns[2] == "INSIGHTX LEAD" && InsightPatterns[3] == "Additional Context";
    exists i | 0 <= i < |InsightPatterns| :: Text.Contains(content, InsightPatterns[i])
  }

  /** Text around an occurrence keeps it an occurrence. */
  lemma ContainsWithin(pre: string, s: string, post: string, p: string)
    requires Text.Contains(s, p)
    ensures Text.Contains(pre + s + post, p)
  {
    var i :| 0 <= i <= |s| - |p| && Text.OccursAt(s, p, i);
    var t := pre + s + post;
    assert t[|pre| + i..|pre| + i + |p|] == s[i..i + |p|];
    assert Text.OccursAt(t, p, |pre| + i);
  }

  /** Surrounding an insight answer with more text never loses the card. */
  lemma InsightKept(pre: string, content: string, post: string)
    requires IsInsightResponse(content)
    ensures IsInsightResponse(pre + content + post)
  {
    var i :| 0 <= i < |InsightPatterns| && Text.Contains(content, InsightPatterns[i]);
    ContainsWithin(pre, content, post, InsightPatterns[i]);
  }

  /** An answer led by the lead marker is an insight answer. */
  lemma LeadIsInsight(rest: string)
    ensures IsInsightResponse("INSIGHTX LEAD" + rest)
  {
    Text.ContainsSelf("INSIGHTX LEAD");
    ContainsWithin("", "INSIGHTX LEAD", rest, InsightPatterns[2]);
    assert "" + "INSIGHTX LEAD" + rest == "INSIGHTX LEAD" + rest;
  }
}
