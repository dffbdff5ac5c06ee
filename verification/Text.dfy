/** Text the way the Python it models sees it: lines, whitespace, trimming. */
module Text {
  /** Where `str.splitlines` breaks. */
  predicate IsBreak(c: char) {
    c == '\n' || c == '\r' || c == '\U{b}' || c == '\U{c}' || '\U{1c}' <= c <= '\U{1e}' || c == '\U{85}'
    || c == '\U{2028}' || c == '\U{2029}'
  }

  /** What `str.strip` removes. */
  predicate IsSpace(c: char) {
    IsBreak(c) || c == ' ' || c == '\t' || c == '\U{1f}' || c == '\U{a0}' || c == '\U{1680}'
    || '\U{2000}' <= c <= '\U{200a}' || c == '\U{202f}' || c == '\U{205f}' || c == '\U{3000}'
  }

  predicate IsSlash(c: char) { c == '/' }

  predicate NoBreak(s: string) {
    forall k :: 0 <= k < |s| ==> !IsBreak(s[k])
  }

  ghost predicate NoBreaks(lines: seq<string>) {
    forall k :: 0 <= k < |lines| ==> NoBreak(lines[k])
  }

  // ── Trimming ────────────────────────────────────────────────────────────

  function TrimStart(s: string, drop: char -> bool): (t: string)
    ensures |t| <= |s|
  {
    if s != "" && drop(s[0]) then TrimStart(s[1..], drop) else s
  }

  function TrimEnd(s: string, drop: char -> bool): (t: string)
    ensures |t| <= |s|
  {
    if s != "" && drop(s[|s| - 1]) then TrimEnd(s[..|s| - 1], drop) else s
  }

  function Trim(s: string, drop: char -> bool): (t: string)
    ensures |t| <= |s|
  {
    TrimEnd(TrimStart(s, drop), drop)
  }

  function Strip(s: string): string {
    Trim(s, IsSpace)
  }

  /** The text begins and ends with characters that stay. */
  predicate Tight(s: string, drop: char -> bool) {
    s != "" ==> !drop(s[0]) && !drop(s[|s| - 1])
  }

  lemma {:induction false} TrimEndTail(a: string, b: string, drop: char -> bool)
    requires b != "" && !drop(b[0])
    ensures TrimEnd(a + b, drop) == a + TrimEnd(b, drop)
    ensures TrimEnd(b, drop) != "" && TrimEnd(b, drop)[0] == b[0]
  {
    if drop(b[|b| - 1]) {
      assert (a + b)[..|a + b| - 1] == a + b[..|b| - 1];
      TrimEndTail(a, b[..|b| - 1], drop);
    }
  }

  /** A tight text followed by one that is dropped. */
  lemma {:induction false} TrimEndAll(a: string, b: string, drop: char -> bool)
    requires a != "" && !drop(a[|a| - 1]) && forall k :: 0 <= k < |b| ==> drop(b[k])
    ensures TrimEnd(a + b, drop) == a
  {
    if b == "" {
      assert a + b == a;
    } else {
      assert (a + b)[..|a + b| - 1] == a + b[..|b| - 1];
      TrimEndAll(a, b[..|b| - 1], drop);
    }
  }

  lemma TrimTight(s: string, drop: char -> bool)
    requires Tight(s, drop)
    ensures Trim(s, drop) == s
  {
  }

  /** One dropped character in front. */
  lemma TrimAfter(c: char, s: string, drop: char -> bool)
    requires drop(c) && s != "" && !drop(s[0])
    ensures Trim([c] + s, drop) == TrimEnd(s, drop)
  {
    assert ([c] + s)[1..] == s;
    assert TrimStart([c] + s, drop) == TrimStart(s, drop) == s;
  }

  lemma {:induction false} TrimmedPart(s: string, drop: char -> bool)
    ensures Tight(Trim(s, drop), drop) && (NoBreak(s) ==> NoBreak(Trim(s, drop)))
  {
    StartPart(s, drop);
    EndPart(TrimStart(s, drop), drop);
  }

  lemma {:induction false} StartPart(s: string, drop: char -> bool)
    ensures var t := TrimStart(s, drop); (t != "" ==> !drop(t[0])) && (NoBreak(s) ==> NoBreak(t))
  {
    if s != "" && drop(s[0]) {
      assert forall k :: 0 <= k < |s[1..]| ==> s[1..][k] == s[k + 1];
      StartPart(s[1..], drop);
    }
  }

  lemma {:induction false} EndPart(s: string, drop: char -> bool)
    requires s != "" ==> !drop(s[0])
    ensures var t := TrimEnd(s, drop); Tight(t, drop) && (NoBreak(s) ==> NoBreak(t)) && (s != "" ==> t != "" && t[0] == s[0])
  {
    if s != "" && drop(s[|s| - 1]) {
      EndPart(s[..|s| - 1], drop);
    }
  }

  // ── Lines ───────────────────────────────────────────────────────────────

  /** Where the first line of the text ends. */
  function FirstBreak(t: string): (k: nat)
    ensures k <= |t| && NoBreak(t[..k]) && (k < |t| ==> IsBreak(t[k]))
  {
    if t == "" || IsBreak(t[0]) then 0
    else
      var k := FirstBreak(t[1..]);
      assert t[..k + 1] == [t[0]] + t[1..][..k];
      k + 1
  }

  /** `str.splitlines`; a carriage return and the newline after it are one break. */
  function Split(t: string): (lines: seq<string>)
    ensures NoBreaks(lines)
    decreases |t|
  {
    if t == "" then []
    else
      var k := FirstBreak(t);
      if k == |t| then [t[..k]]
      else if t[k] == '\r' && k + 1 < |t| && t[k + 1] == '\n' then [t[..k]] + Split(t[k + 2..])
      else [t[..k]] + Split(t[k + 1..])
  }

  function Unlines(lines: seq<string>): string {
    if lines == [] then "" else lines[0] + "\n" + Unlines(lines[1..])
  }

  /** `"\n".join(lines)`. */
  function Joined(lines: seq<string>): string {
    if lines == [] then "" else if |lines| == 1 then lines[0] else lines[0] + "\n" + Joined(lines[1..])
  }

  lemma {:induction false} BreakAfter(l: string, rest: string)
    requires NoBreak(l) && rest != "" && IsBreak(rest[0])
    ensures FirstBreak(l + rest) == |l|
  {
    if l == "" {
      assert l + rest == rest;
    } else {
      assert (l + rest)[1..] == l[1..] + rest;
      assert forall k :: 0 <= k < |l[1..]| ==> l[1..][k] == l[k + 1];
      BreakAfter(l[1..], rest);
    }
  }

  lemma SplitLine(l: string, rest: string)
    requires NoBreak(l)
    ensures Split(l + "\n" + rest) == [l] + Split(rest)
  {
    var t := l + "\n" + rest;
    BreakAfter(l, "\n" + rest);
    assert t == l + ("\n" + rest);
    assert t[..|l|] == l && t[|l| + 1..] == rest && t[|l|] == '\n';
  }

  lemma {:induction false} NoBreakAt(t: string)
    requires NoBreak(t)
    ensures FirstBreak(t) == |t|
  {
    if t != "" {
      assert forall k :: 0 <= k < |t[1..]| ==> t[1..][k] == t[k + 1];
      NoBreakAt(t[1..]);
    }
  }

  lemma UnlinesNext(l: string, u: string, rest: string)
    ensures l + "\n" + u + rest == l + "\n" + (u + rest)
  {
  }

  lemma {:induction false} SplitUnlines(lines: seq<string>, rest: string)
    requires NoBreaks(lines)
    ensures Split(Unlines(lines) + rest) == lines + Split(rest)
  {
    if lines == [] {
      assert Unlines(lines) + rest == rest;
    } else {
      RestNoBreaks(lines);
      var u := Unlines(lines[1..]) + rest;
      SplitUnlines(lines[1..], rest);
      UnlinesNext(lines[0], Unlines(lines[1..]), rest);
      SplitLine(lines[0], u);
      HeadAndRest(lines, Split(rest));
    }
  }

  lemma RestNoBreaks(lines: seq<string>)
    requires NoBreaks(lines) && lines != []
    ensures NoBreak(lines[0]) && NoBreaks(lines[1..])
  {
    assert forall k :: 0 <= k < |lines[1..]| ==> lines[1..][k] == lines[k + 1];
  }

  lemma HeadAndRest(lines: seq<string>, more: seq<string>)
    requires lines != []
    ensures lines + more == [lines[0]] + (lines[1..] + more)
  {
  }

  lemma {:induction false} JoinedIsUnlines(lines: seq<string>)
    requires lines != []
    ensures Joined(lines) + "\n" == Unlines(lines)
  {
    if |lines| > 1 {
      JoinedIsUnlines(lines[1..]);
      assert Joined(lines) + "\n" == lines[0] + "\n" + (Joined(lines[1..]) + "\n");
    } else {
      assert Unlines(lines[1..]) == "";
      assert lines[0] + "\n" + "" == lines[0] + "\n";
    }
  }

  // ── Lines that say something ────────────────────────────────────────────

  function NonBlank(lines: seq<string>): seq<string> {
    if lines == [] then []
    else NonBlank(lines[..|lines| - 1]) + if Strip(lines[|lines| - 1]) == "" then [] else [lines[|lines| - 1]]
  }

  lemma {:induction false} NonBlankJoin(a: seq<string>, b: seq<string>)
    ensures NonBlank(a + b) == NonBlank(a) + NonBlank(b)
  {
    if b == [] {
      assert a + b == a;
    } else {
      NonBlankJoin(a, b[..|b| - 1]);
      assert (a + b)[..|a + b| - 1] == a + b[..|b| - 1];
    }
  }

  /** Joining lines and splitting them again loses at most blank lines. */
  lemma {:induction false} JoinedKeeps(lines: seq<string>)
    requires NoBreaks(lines)
    ensures NonBlank(Split(Joined(lines))) == NonBlank(lines)
  {
    if |lines| == 1 {
      NoBreakAt(lines[0]);
      assert lines[0][..|lines[0]|] == lines[0];
      assert lines == [lines[0]] && NonBlank([]) == [];
      assert lines[0] != "" ==> Split(lines[0]) == lines;
      assert lines[0] == "" ==> Strip(lines[0]) == "";
    } else if |lines| > 1 {
      var rest := lines[1..];
      assert forall k :: 0 <= k < |rest| ==> rest[k] == lines[k + 1];
      JoinedKeeps(rest);
      SplitLine(lines[0], Joined(rest));
      NonBlankJoin([lines[0]], Split(Joined(rest)));
      NonBlankJoin([lines[0]], rest);
      assert lines == [lines[0]] + rest;
    }
  }
}
