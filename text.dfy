// The JavaScript string operations the core relies on, written out over
// `seq<char>`: prefix and substring tests, ASCII case mapping, the
// whitespace set of String.prototype.trim, split/join on one character
// and the decimal rendering of integers used by template literals.
module Text {

  predicate StartsWith(s: string, prefix: string)
  {
    |prefix| <= |s| && s[..|prefix|] == prefix
  }

  predicate EndsWith(s: string, suffix: string)
  {
    |suffix| <= |s| && s[|s| - |suffix|..] == suffix
  }

  predicate OccursAt(s: string, sub: string, i: int)
  {
    0 <= i <= |s| - |sub| && s[i..i + |sub|] == sub
  }

  /** String.prototype.includes: `sub` occurs somewhere in `s`. */
  predicate Contains(s: string, sub: string)
  {
    exists i | 0 <= i <= |s| - |sub| :: OccursAt(s, sub, i)
  }

  lemma ContainsEmpty(s: string)
    ensures Contains(s, "")
  {
    assert OccursAt(s, "", 0);
  }

  lemma ContainsSelf(s: string)
    ensures Contains(s, s)
  {
    assert OccursAt(s, s, 0);
  }

  /** toLowerCase restricted to ASCII letters; other characters are kept. */
  function LowerChar(c: char): char
  {
    if 'A' <= c <= 'Z' then (c as int + 32) as char else c
  }

  function UpperChar(c: char): char
  {
    if 'a' <= c <= 'z' then (c as int - 32) as char else c
  }

  function Lower(s: string): (r: string)
    ensures |r| == |s|
    ensures forall i | 0 <= i < |s| :: r[i] == LowerChar(s[i])
  {
    seq(|s|, i requires 0 <= i < |s| => LowerChar(s[i]))
  }

  function Upper(s: string): (r: string)
    ensures |r| == |s|
    ensures forall i | 0 <= i < |s| :: r[i] == UpperChar(s[i])
  {
    seq(|s|, i requires 0 <= i < |s| => UpperChar(s[i]))
  }

  /** The characters String.prototype.trim removes: WhiteSpace and LineTerminator. */
  predicate IsSpace(c: char)
  {
    c == '\t' || c == '\n' || c == '\U{000B}' || c == '\U{000C}' || c == '\r' || c == ' '
    || c == '\U{00A0}' || c == '\U{1680}' || ('\U{2000}' <= c <= '\U{200A}')
    || c == '\U{2028}' || c == '\U{2029}' || c == '\U{202F}' || c == '\U{205F}'
    || c == '\U{3000}' || c == '\U{FEFF}'
  }

  predicate AllSpace(s: string)
  {
    forall i | 0 <= i < |s| :: IsSpace(s[i])
  }

  /** How many whitespace characters `s` starts with. */
  function LeadingSpace(s: string): (n: nat)
    ensures n <= |s| && AllSpace(s[..n])
    ensures n < |s| ==> !IsSpace(s[n])
  {
    if |s| > 0 && IsSpace(s[0]) then
      var n := 1 + LeadingSpace(s[1..]);
      assert s[..n] == [s[0]] + s[1..][..n - 1];
      n
    else 0
  }

  /** How many whitespace characters `s` ends with. */
  function TrailingSpace(s: string): (n: nat)
    ensures n <= |s| && AllSpace(s[|s| - n..])
    ensures n < |s| ==> !IsSpace(s[|s| - n - 1])
  {
    if |s| > 0 && IsSpace(s[|s| - 1]) then
      var n := 1 + TrailingSpace(s[..|s| - 1]);
      assert s[|s| - n..] == s[..|s| - 1][|s| - n..] + [s[|s| - 1]];
      n
    else 0
  }

  /** String.prototype.trimStart. */
  function TrimStart(s: string): string
  {
    s[LeadingSpace(s)..]
  }

  /** String.prototype.trimEnd. */
  function TrimEnd(s: string): string
  {
    s[..|s| - TrailingSpace(s)]
  }

  /** String.prototype.trim. */
  function Trim(s: string): string
  {
    TrimEnd(TrimStart(s))
  }

  /** A string trims to "" exactly when every character is whitespace. */
  lemma TrimEmptyIff(s: string)
    ensures Trim(s) == "" <==> AllSpace(s)
  {
    var n := LeadingSpace(s);
    var t := TrimStart(s);
    if n == |s| {
      assert s[..n] == s;
    } else {
      assert t[0] == s[n];
      assert TrailingSpace(t) < |t|;
    }
  }

  /** Trimming a string that already has no outer whitespace changes nothing. */
  lemma TrimIdentity(s: string)
    requires s != [] ==> !IsSpace(s[0]) && !IsSpace(s[|s| - 1])
    ensures Trim(s) == s
  {
  }

  /** Trimming twice is trimming once. */
  lemma TrimIdempotent(s: string)
    ensures Trim(Trim(s)) == Trim(s)
  {
    var t := TrimStart(s);
    var r := TrimEnd(t);
    if r != [] {
      assert r[0] == t[0];
      assert r[|r| - 1] == t[|r| - 1];
      TrimIdentity(r);
    }
  }

  /** LeadingSpace is the one count of whitespace that stops at a non-space. */
  lemma LeadingSpaceUnique(s: string, m: nat)
    requires m <= |s| && AllSpace(s[..m])
    requires m < |s| ==> !IsSpace(s[m])
    ensures LeadingSpace(s) == m
  {
    var n := LeadingSpace(s);
    assert forall i | 0 <= i < m :: IsSpace(s[i]) by {
      forall i | 0 <= i < m ensures IsSpace(s[i]) { assert s[..m][i] == s[i]; }
    }
    assert forall i | 0 <= i < n :: IsSpace(s[i]) by {
      forall i | 0 <= i < n ensures IsSpace(s[i]) { assert s[..n][i] == s[i]; }
    }
  }

  /** A whitespace prefix is no longer than the leading whitespace. */
  lemma LeadingSpaceAtLeast(s: string, w: nat)
    requires w <= |s| && AllSpace(s[..w])
    ensures w <= LeadingSpace(s)
  {
    forall i | 0 <= i < w
      ensures IsSpace(s[i])
    {
      assert s[..w][i] == s[i];
    }
  }

  /** A string ending in a non-space does not consist of leading whitespace. */
  lemma LeadingSpaceShort(s: string)
    requires s != [] && !IsSpace(s[|s| - 1])
    ensures LeadingSpace(s) < |s|
  {
    var n := LeadingSpace(s);
    forall i | 0 <= i < n
      ensures IsSpace(s[i])
    {
      assert s[..n][i] == s[i];
    }
  }

  /** Whitespace in front of a string does not change what it trims to. */
  lemma TrimDropSpace(s: string, w: nat)
    requires w <= |s| && AllSpace(s[..w])
    ensures Trim(s[w..]) == Trim(s)
  {
    var n := LeadingSpace(s);
    var u := s[w..];
    assert u[..n - w] == s[w..n];
    assert forall i | 0 <= i < n - w :: s[w..n][i] == s[..n][w + i];
    if n < |s| {
      assert u[n - w] == s[n];
    }
    LeadingSpaceUnique(u, n - w);
    assert TrimStart(u) == TrimStart(s);
  }

  /** Trimming only removes characters, so a character absent before is absent after. */
  lemma TrimKeepsOut(s: string, c: char)
    requires c !in s
    ensures c !in Trim(s)
  {
    var n := LeadingSpace(s);
    var t := TrimStart(s);
    assert forall i | 0 <= i < |t| :: t[i] == s[n + i];
    var r := TrimEnd(t);
    assert forall i | 0 <= i < |r| :: r[i] == t[i];
  }

  /** String.prototype.split with a one-character separator. */
  function Split(s: string, sep: char): (parts: seq<string>)
    ensures |parts| >= 1
    ensures forall i | 0 <= i < |parts| :: sep !in parts[i]
  {
    if s == [] then [""]
    else
      var rest := Split(s[1..], sep);
      if s[0] == sep then [""] + rest
      else [[s[0]] + rest[0]] + rest[1..]
  }

  /** Array.prototype.join with a separator. */
  function Join(parts: seq<string>, sep: string): string
  {
    if parts == [] then ""
    else if |parts| == 1 then parts[0]
    else parts[0] + sep + Join(parts[1..], sep)
  }

  /** A joined list starts with its first element. */
  lemma JoinStartsWith(parts: seq<string>, sep: string)
    requires |parts| > 0
    ensures StartsWith(Join(parts, sep), parts[0])
  {
    var j := Join(parts, sep);
    if |parts| > 1 {
      assert j == parts[0] + (sep + Join(parts[1..], sep));
    }
    assert j[..|parts[0]|] == parts[0];
  }

  /** Splitting and re-joining on the same character gives the text back. */
  lemma {:induction false} JoinSplit(s: string, sep: char)
    ensures Join(Split(s, sep), [sep]) == s
  {
    if s != [] {
      var rest := Split(s[1..], sep);
      JoinSplit(s[1..], sep);
      if s[0] == sep {
        assert Split(s, sep) == [""] + rest;
        assert ([""] + rest)[1..] == rest;
      } else {
        var parts := Split(s, sep);
        assert parts == [[s[0]] + rest[0]] + rest[1..];
        if |rest| == 1 {
          assert rest == [rest[0]];
        } else {
          assert Join(rest, [sep]) == rest[0] + [sep] + Join(rest[1..], [sep]);
          assert parts[1..] == rest[1..];
        }
      }
    }
  }

  /** One step of Split, for a string given as its first character and the rest. */
  lemma SplitCons(c: char, t: string, sep: char)
    ensures Split([c] + t, sep)
            == if c == sep then [""] + Split(t, sep)
               else [[c] + Split(t, sep)[0]] + Split(t, sep)[1..]
  {
    assert ([c] + t)[1..] == t;
  }

  /** Splitting a concatenation: the last piece of the first part is glued to the
    * first piece of the second; every other piece is unchanged. This is what lets a
    * stream reader split each chunk together with the unfinished tail of the last one. */
  lemma {:induction false} SplitAppend(x: string, y: string, sep: char)
    ensures var px := Split(x, sep);
            Split(x + y, sep) == px[..|px| - 1] + Split(px[|px| - 1] + y, sep)
  {
    if x == [] {
      assert x + y == y;
    } else {
      var c, x' := x[0], x[1..];
      assert x == [c] + x';
      assert x + y == [c] + (x' + y);
      SplitAppend(x', y, sep);
      SplitCons(c, x', sep);
      SplitCons(c, x' + y, sep);
      var rx := Split(x', sep);
      var t := Split(rx[|rx| - 1] + y, sep);
      if c == sep {
        GlueSep(rx, t);
      } else if |rx| == 1 {
        assert ([c] + rx[0]) + y == [c] + (rx[0] + y);
        SplitCons(c, rx[0] + y, sep);
        GlueOne(c, rx, t);
      } else {
        GlueMany(c, rx, t);
      }
    }
  }

  lemma GlueSep(rx: seq<string>, t: seq<string>)
    requires |rx| >= 1
    ensures var px := [""] + rx;
            [""] + (rx[..|rx| - 1] + t) == px[..|px| - 1] + t
  {
    assert ([""] + rx)[..|rx|] == [""] + rx[..|rx| - 1];
  }

  lemma GlueOne(c: char, rx: seq<string>, t: seq<string>)
    requires |rx| == 1 && |t| >= 1
    ensures var s := rx[..0] + t;
            [[c] + s[0]] + s[1..] == [[c] + rx[0]][..0] + ([[c] + t[0]] + t[1..])
  {
    assert rx[..0] + t == t;
  }

  lemma GlueMany(c: char, rx: seq<string>, t: seq<string>)
    requires |rx| > 1
    ensures var s := rx[..|rx| - 1] + t;
            var px := [[c] + rx[0]] + rx[1..];
            [[c] + s[0]] + s[1..] == px[..|px| - 1] + t
  {
    var s := rx[..|rx| - 1] + t;
    assert s[0] == rx[0];
    assert s[1..] == rx[1..|rx| - 1] + t;
    var px := [[c] + rx[0]] + rx[1..];
    assert px[..|px| - 1] == [[c] + rx[0]] + rx[1..|rx| - 1];
  }

  function DigitChar(d: nat): (c: char)
    requires d < 10
    ensures '0' <= c <= '9'
  {
    (48 + d) as char
  }

  /** Decimal rendering of a natural number, as String(n) gives it. */
  function NatToString(n: nat): (r: string)
    ensures |r| >= 1
    ensures n < 10 <==> |r| == 1
  {
    if n < 10 then [DigitChar(n)] else NatToString(n / 10) + [DigitChar(n % 10)]
  }

  /** Different numbers render differently. */
  lemma {:induction false} NatToStringInjective(a: nat, b: nat)
    requires NatToString(a) == NatToString(b)
    ensures a == b
  {
    if a >= 10 && b >= 10 {
      var sa, sb := NatToString(a), NatToString(b);
      assert sa[|sa| - 1] == DigitChar(a % 10) && sb[|sb| - 1] == DigitChar(b % 10);
      assert a % 10 == b % 10;
      assert sa[..|sa| - 1] == NatToString(a / 10);
      assert sb[..|sb| - 1] == NatToString(b / 10);
      NatToStringInjective(a / 10, b / 10);
    } else if a < 10 && b < 10 {
      assert NatToString(a)[0] == DigitChar(a);
    }
  }

  function IntToString(i: int): string
  {
    if i < 0 then "-" + NatToString(-i) else NatToString(i)
  }
}
