/**
 * The share definitions NAZMan keeps in its own region of smb.conf (nazman/managers/smb_manager.py):
 * printing a share, parsing the region, and rewriting it inside a file that belongs to someone else.
 */
module Smb {
  import opened Streams
  import opened Text

  // ── Names ───────────────────────────────────────────────────────────────

  /** `_normalize_dataset_name`. */
  function Normalize(name: string): string {
    Trim(Strip(name), IsSlash)
  }

  function LowerChar(c: char): char {
    if 'A' <= c <= 'Z' then (c as int + 32) as char else c
  }

  function Lower(s: string): (t: string)
    ensures |t| == |s| && forall k :: 0 <= k < |s| ==> t[k] == LowerChar(s[k])
  {
    seq(|s|, k requires 0 <= k < |s| => LowerChar(s[k]))
  }

  predicate InName(c: char) {
    'a' <= c <= 'z' || '0' <= c <= '9' || c == '_'
  }

  predicate IsUnderscore(c: char) { c == '_' }

  function Base(s: string): string {
    if '/' in s then Base(s[1..]) else s
  }

  function Masked(s: string): (t: string)
    ensures forall k :: 0 <= k < |t| ==> InName(t[k])
  {
    seq(|s|, k requires 0 <= k < |s| => if InName(s[k]) then s[k] else '_')
  }

  /** `share_name_for`: letters, digits and underscores, never empty. */
  function ShareName(dataset: string): (n: string)
    ensures n != "" && forall k :: 0 <= k < |n| ==> InName(n[k])
  {
    var name := Trim(Masked(Lower(Base(Normalize(dataset)))), IsUnderscore);
    NamePart(Masked(Lower(Base(Normalize(dataset)))));
    if name == "" then "share" else name
  }

  lemma {:induction false} BaseIsLast(s: string)
    ensures '/' !in Base(s) && |Base(s)| <= |s| && s[|s| - |Base(s)|..] == Base(s)
    ensures '/' in s ==> |Base(s)| < |s| && s[|s| - |Base(s)| - 1] == '/'
  {
    if '/' in s {
      BaseIsLast(s[1..]);
      assert s == [s[0]] + s[1..];
    }
  }

  lemma {:induction false} StartSplits(s: string, drop: char -> bool) returns (i: nat)
    ensures i <= |s| && TrimStart(s, drop) == s[i..] && forall k :: 0 <= k < i ==> drop(s[k])
  {
    if s != "" && drop(s[0]) {
      var rest := StartSplits(s[1..], drop);
      i := rest + 1;
      assert forall k :: 0 < k < i ==> s[k] == s[1..][k - 1];
      assert s[i..] == s[1..][rest..];
    } else {
      i := 0;
    }
  }

  lemma {:induction false} EndSplits(s: string, drop: char -> bool) returns (j: nat)
    ensures j <= |s| && TrimEnd(s, drop) == s[..j] && forall k :: j <= k < |s| ==> drop(s[k])
  {
    if s != "" && drop(s[|s| - 1]) {
      j := EndSplits(s[..|s| - 1], drop);
      assert s[..|s| - 1][..j] == s[..j];
    } else {
      j := |s|;
      assert s[..j] == s;
    }
  }

  /** Between the underscores at its ends, the text is `part`, which has none at its own ends. */
  ghost predicate Bare(s: string, part: string, i: nat, j: nat) {
    && i <= j <= |s| && part == s[i..j] && Tight(part, IsUnderscore)
    && (forall k :: 0 <= k < i ==> s[k] == '_') && (forall k :: j <= k < |s| ==> s[k] == '_')
  }

  lemma UnderscoresOff(s: string) returns (i: nat, j: nat)
    ensures Bare(s, Trim(s, IsUnderscore), i, j)
  {
    i := StartSplits(s, IsUnderscore);
    var rest := s[i..];
    var m := EndSplits(rest, IsUnderscore);
    j := i + m;
    TrimmedPart(s, IsUnderscore);
    assert rest[..m] == s[i..j];
    forall k | j <= k < |s| ensures s[k] == '_' {
      assert s[k] == rest[k - i] && IsUnderscore(rest[k - i]);
    }
    forall k | 0 <= k < i ensures s[k] == '_' {
      assert IsUnderscore(s[k]);
    }
  }

  /**
   * The share is named after the last component of the dataset's path: lower case, everything that is no
   * letter, digit or underscore masked, without the underscores at the ends; "share" if nothing is left.
   */
  lemma ShareNamedAfter(dataset: string) returns (last: string, masked: string, i: nat, j: nat)
    ensures var path := Normalize(dataset);
            && '/' !in last && |last| <= |path| && path[|path| - |last|..] == last
            && ('/' in path ==> |last| < |path| && path[|path| - |last| - 1] == '/') && ('/' !in path ==> last == path)
    ensures |masked| == |last| && forall k :: 0 <= k < |last| ==>
              masked[k] == if InName(LowerChar(last[k])) then LowerChar(last[k]) else '_'
    ensures i <= j <= |masked| && (if i == j then ShareName(dataset) == "share" else Bare(masked, ShareName(dataset), i, j))
    ensures i == j ==> forall k :: 0 <= k < |masked| ==> masked[k] == '_'
  {
    last := Base(Normalize(dataset));
    BaseIsLast(Normalize(dataset));
    masked := Masked(Lower(last));
    i, j := UnderscoresOff(masked);
  }

  lemma NamePart(s: string)
    requires forall k :: 0 <= k < |s| ==> InName(s[k])
    ensures forall k :: 0 <= k < |Trim(s, IsUnderscore)| ==> InName(Trim(s, IsUnderscore)[k])
  {
    StartIn(s);
    EndIn(TrimStart(s, IsUnderscore));
  }

  lemma {:induction false} StartIn(s: string)
    requires forall k :: 0 <= k < |s| ==> InName(s[k])
    ensures forall k :: 0 <= k < |TrimStart(s, IsUnderscore)| ==> InName(TrimStart(s, IsUnderscore)[k])
  {
    if s != "" && IsUnderscore(s[0]) { StartIn(s[1..]); }
  }

  lemma {:induction false} EndIn(s: string)
    requires forall k :: 0 <= k < |s| ==> InName(s[k])
    ensures forall k :: 0 <= k < |TrimEnd(s, IsUnderscore)| ==> InName(TrimEnd(s, IsUnderscore)[k])
  {
    if s != "" && IsUnderscore(s[|s| - 1]) { EndIn(s[..|s| - 1]); }
  }

  // ── Parsing ─────────────────────────────────────────────────────────────

  datatype Line = Noise | Header(name: string) | Setting(key: string, value: string)

  datatype Section = Section(name: string, options: seq<(string, string)>)

  function Find(s: string, c: char): (k: nat)
    ensures k <= |s| && (c in s ==> k < |s| && s[k] == c)
  {
    if s == "" || s[0] == c then 0 else 1 + Find(s[1..], c)
  }

  /** A name in square brackets with no closing bracket in it. */
  predicate IsHeader(line: string) {
    |line| > 2 && line[0] == '[' && line[|line| - 1] == ']' && ']' !in line[1..|line| - 1]
  }

  function Classify(raw: string): Line {
    var line := Strip(raw);
    if line == "" || line[0] == '#' || line[0] == ';' then Noise
    else if IsHeader(line) then Header(line[1..|line| - 1])
    else if '=' in line then
      Setting(Lower(Strip(line[..Find(line, '=')])), Strip(line[Find(line, '=') + 1..]))
    else Noise
  }

  /** What one more line does to the sections read so far: a setting before any header is dropped. */
  function AddLine(sections: seq<Section>, line: Line): seq<Section> {
    match line
    case Noise => sections
    case Header(name) => sections + [Section(name, [])]
    case Setting(key, value) =>
      if sections == [] then sections
      else
        var last := sections[|sections| - 1];
        sections[|sections| - 1 := Section(last.name, last.options + [(key, value)])]
  }

  function Sections(lines: seq<string>): seq<Section> {
    if lines == [] then [] else AddLine(Sections(lines[..|lines| - 1]), Classify(lines[|lines| - 1]))
  }

  /** `_split_sections`. */
  method SplitSections(text: string) returns (sections: seq<Section>)
    ensures sections == Sections(Split(text))
  {
    var lines := Split(text);
    sections := [];
    var n := 0;
    while n < |lines|
      invariant 0 <= n <= |lines| && sections == Sections(lines[..n])
    {
      assert lines[..n + 1][..n] == lines[..n];
      match Classify(lines[n]) {
        case Noise =>
        case Header(name) => sections := sections + [Section(name, [])];
        case Setting(key, value) =>
          if sections != [] {
            var current := sections[|sections| - 1];
            sections := sections[|sections| - 1 := Section(current.name, current.options + [(key, value)])];
          }
      }
      n := n + 1;
    }
    assert lines[..n] == lines;
  }

  /** `dict(options).get(key, default)`: the last of the settings counts. */
  function Get(options: seq<(string, string)>, key: string, absent: string): string {
    if options == [] then absent
    else if options[|options| - 1].0 == key then options[|options| - 1].1
    else Get(options[..|options| - 1], key, absent)
  }

  datatype Meta = Meta(name: string, dataset: string, readOnly: bool, enabled: bool)

  /** `_section_to_meta`. */
  function MetaOf(s: Section): Meta {
    Meta(s.name, Normalize(Get(s.options, "path", "")), Lower(Get(s.options, "read only", "no")) == "yes",
         Lower(Get(s.options, "enabled", "yes")) != "no" && Lower(Get(s.options, "guest ok", "no")) == "yes")
  }

  function Metas(sections: seq<Section>): seq<Meta> {
    seq(|sections|, k requires 0 <= k < |sections| => MetaOf(sections[k]))
  }

  // ── Printing ────────────────────────────────────────────────────────────

  datatype Share = Share(dataset: string, readOnly: bool, enabled: bool)

  const ANON_USER := "nfsanon"

  function YesNo(b: bool): string {
    if b then "yes" else "no"
  }

  function Options(s: Share): seq<(string, string)> {
    [("path", "/" + Normalize(s.dataset)), ("read only", YesNo(s.readOnly)), ("guest ok", "yes"), ("public", "yes"),
     ("browseable", "yes"), ("enabled", YesNo(s.enabled)), ("force user", ANON_USER), ("force group", ANON_USER)]
  }

  function SettingLine(o: (string, string)): string {
    "\t" + o.0 + " = " + o.1
  }

  function SettingLines(options: seq<(string, string)>): seq<string> {
    seq(|options|, k requires 0 <= k < |options| => SettingLine(options[k]))
  }

  /** `_render_share_block`, a line at a time. */
  function BlockLines(s: Share): seq<string> {
    ["[" + ShareName(s.dataset) + "]"] + SettingLines(Options(s))
  }

  function Region(shares: seq<Share>): seq<string> {
    if shares == [] then [] else Region(shares[..|shares| - 1]) + BlockLines(shares[|shares| - 1])
  }

  /** What a parsed block should say. */
  function Expected(s: Share): Meta {
    Meta(ShareName(s.dataset), Normalize(s.dataset), s.readOnly, s.enabled)
  }

  /** The dataset a rendered block's path line names. */
  function BlockDataset(s: Share): string {
    Normalize(TrimEnd("/" + Normalize(s.dataset), IsSpace))
  }

  /** The name survives a line of its own: no line break in it, no space at its end. */
  predicate Clean(name: string) {
    NoBreak(name) && (name != "" ==> !IsSpace(name[|name| - 1]))
  }

  // ── One setting ─────────────────────────────────────────────────────────

  /** A key as the block writes them. */
  predicate PlainKey(key: string) {
    && key != "" && 'a' <= key[0] <= 'z' && !IsSpace(key[|key| - 1])
    && forall k :: 0 <= k < |key| ==> 'a' <= key[k] <= 'z' || key[k] == ' '
  }

  lemma FindPast(a: string, b: string)
    requires '=' !in a
    ensures Find(a + "=" + b, '=') == |a|
  {
    if a == "" {
      assert a + "=" + b == "=" + b;
    } else {
      assert (a + "=" + b)[1..] == a[1..] + "=" + b;
      FindPast(a[1..], b);
    }
  }

  lemma LowerPlain(key: string)
    requires PlainKey(key)
    ensures Lower(key) == key && '=' !in key && Strip(key + " ") == key
  {
    TrimEndAll(key, " ", IsSpace);
    assert TrimStart(key + " ", IsSpace) == key + " ";
  }

  lemma StrippedSetting(key: string, value: string)
    requires PlainKey(key) && value != "" && !IsSpace(value[0])
    ensures Strip(SettingLine((key, value))) == key + " = " + TrimEnd(value, IsSpace)
    ensures TrimEnd(value, IsSpace) != "" && !IsSpace(TrimEnd(value, IsSpace)[0])
  {
    var front := key + " = ";
    assert SettingLine((key, value)) == ['\t'] + (front + value);
    TrimAfter('\t', front + value, IsSpace);
    TrimEndTail(front, value, IsSpace);
  }

  lemma SettingSplits(key: string, kept: string)
    requires PlainKey(key)
    ensures var line := key + " = " + kept;
            Find(line, '=') == |key| + 1 && line[..|key| + 1] == key + " " && line[|key| + 2..] == " " + kept
            && '=' in line && line[0] == key[0]
  {
    var line := key + " = " + kept;
    LowerPlain(key);
    FindPast(key + " ", " " + kept);
    assert line == (key + " ") + "=" + (" " + kept);
    assert line[|key| + 1] == '=';
  }

  /** A setting is read back with its value stripped at the end. */
  lemma SettingParses(key: string, value: string)
    requires PlainKey(key) && value != "" && !IsSpace(value[0])
    ensures Classify(SettingLine((key, value))) == Setting(key, TrimEnd(value, IsSpace))
  {
    var kept := TrimEnd(value, IsSpace);
    var line := key + " = " + kept;
    StrippedSetting(key, value);
    SettingSplits(key, kept);
    ClassifySetting(SettingLine((key, value)), line);
    LowerPlain(key);
    SpaceBefore(kept);
    TrimTwice(value);
  }

  lemma ClassifySetting(raw: string, line: string)
    requires Strip(raw) == line && line != "" && 'a' <= line[0] <= 'z' && '=' in line
    ensures Classify(raw) == Setting(Lower(Strip(line[..Find(line, '=')])), Strip(line[Find(line, '=') + 1..]))
  {
  }

  lemma SpaceBefore(s: string)
    requires s != "" && !IsSpace(s[0])
    ensures Strip(" " + s) == TrimEnd(s, IsSpace)
  {
    assert " " + s == [' '] + s;
    TrimAfter(' ', s, IsSpace);
  }

  lemma {:induction false} TrimTwice(s: string)
    ensures TrimEnd(TrimEnd(s, IsSpace), IsSpace) == TrimEnd(s, IsSpace)
  {
    if s != "" && IsSpace(s[|s| - 1]) { TrimTwice(s[..|s| - 1]); }
  }

  lemma HeaderParses(name: string)
    requires name != "" && forall k :: 0 <= k < |name| ==> InName(name[k])
    ensures Classify("[" + name + "]") == Header(name)
  {
    var line := "[" + name + "]";
    TrimTight(line, IsSpace);
    assert line[1..|line| - 1] == name;
  }

  // ── One block ───────────────────────────────────────────────────────────

  ghost predicate Printable(o: (string, string)) {
    PlainKey(o.0) && o.1 != "" && !IsSpace(o.1[0])
  }

  function Trimmed(options: seq<(string, string)>): seq<(string, string)> {
    seq(|options|, k requires 0 <= k < |options| => (options[k].0, TrimEnd(options[k].1, IsSpace)))
  }

  lemma PlainKeys()
    ensures PlainKey("path") && PlainKey("read only") && PlainKey("guest ok") && PlainKey("public")
    ensures PlainKey("browseable") && PlainKey("enabled") && PlainKey("force user") && PlainKey("force group")
  {
  }

  lemma AllPrintable(s: Share)
    ensures forall k :: 0 <= k < |Options(s)| ==> Printable(Options(s)[k])
  {
    PlainKeys();
    assert ("/" + Normalize(s.dataset))[0] == '/';
  }

  lemma SectionsNext(before: seq<string>, line: string)
    ensures Sections(before + [line]) == AddLine(Sections(before), Classify(line))
  {
    assert (before + [line])[..|before|] == before;
  }

  lemma AddSetting(sections: seq<Section>, name: string, done: seq<(string, string)>, key: string, value: string)
    ensures AddLine(sections + [Section(name, done)], Setting(key, value)) == sections + [Section(name, done + [(key, value)])]
  {
  }

  lemma SettingsNext(options: seq<(string, string)>)
    requires options != []
    ensures var init, last := options[..|options| - 1], options[|options| - 1];
            && SettingLines(options) == SettingLines(init) + [SettingLine(last)]
            && Trimmed(options) == Trimmed(init) + [(last.0, TrimEnd(last.1, IsSpace))]
  {
  }

  lemma Assoc<T>(a: seq<T>, b: seq<T>, c: seq<T>)
    ensures a + (b + c) == (a + b) + c
  {
  }

  lemma {:induction false} SettingsAdd(
    before: seq<string>, options: seq<(string, string)>, sections: seq<Section>, name: string, done: seq<(string, string)>)
    requires Sections(before) == sections + [Section(name, done)]
    requires forall k :: 0 <= k < |options| ==> Printable(options[k])
    ensures Sections(before + SettingLines(options)) == sections + [Section(name, done + Trimmed(options))]
  {
    if options == [] {
      assert before + SettingLines(options) == before && done + Trimmed(options) == done;
    } else {
      var init, last := options[..|options| - 1], options[|options| - 1];
      SettingsAdd(before, init, sections, name, done);
      SettingParses(last.0, last.1);
      SettingsNext(options);
      Assoc(before, SettingLines(init), [SettingLine(last)]);
      Assoc(done, Trimmed(init), [(last.0, TrimEnd(last.1, IsSpace))]);
      SectionsNext(before + SettingLines(init), SettingLine(last));
      AddSetting(sections, name, done + Trimmed(init), last.0, TrimEnd(last.1, IsSpace));
    }
  }

  function SectionOf(s: Share): Section {
    Section(ShareName(s.dataset), Trimmed(Options(s)))
  }

  lemma BlockAdds(before: seq<string>, s: Share)
    ensures Sections(before + BlockLines(s)) == Sections(before) + [SectionOf(s)]
  {
    var header := "[" + ShareName(s.dataset) + "]";
    HeaderParses(ShareName(s.dataset));
    SectionsNext(before, header);
    AllPrintable(s);
    SettingsAdd(before + [header], Options(s), Sections(before), ShareName(s.dataset), []);
    Assoc(before, [header], SettingLines(Options(s)));
    assert [] + Trimmed(Options(s)) == Trimmed(Options(s));
  }

  function SectionsOf(shares: seq<Share>): seq<Section> {
    seq(|shares|, k requires 0 <= k < |shares| => SectionOf(shares[k]))
  }

  lemma SectionsOfNext(shares: seq<Share>)
    requires shares != []
    ensures SectionsOf(shares) == SectionsOf(shares[..|shares| - 1]) + [SectionOf(shares[|shares| - 1])]
  {
  }

  /** Printed blocks are read back as one section each. */
  lemma {:induction false} RegionAdds(before: seq<string>, shares: seq<Share>)
    ensures Sections(before + Region(shares)) == Sections(before) + SectionsOf(shares)
  {
    if shares == [] {
      assert before + Region(shares) == before;
    } else {
      var init, last := shares[..|shares| - 1], shares[|shares| - 1];
      RegionAdds(before, init);
      BlockAdds(before + Region(init), last);
      Assoc(before, Region(init), BlockLines(last));
      SectionsOfNext(shares);
      Assoc(Sections(before), SectionsOf(init), [SectionOf(last)]);
    }
  }

  lemma YesNoParses(b: bool)
    ensures TrimEnd(YesNo(b), IsSpace) == YesNo(b) && Lower(YesNo(b)) == YesNo(b)
    ensures TrimEnd("yes", IsSpace) == "yes" && Lower("yes") == "yes"
  {
  }

  lemma GetAt(options: seq<(string, string)>, k: nat, absent: string)
    requires k < |options| && forall j :: k < j < |options| ==> options[j].0 != options[k].0
    ensures Get(options, options[k].0, absent) == options[k].1
  {
    if k < |options| - 1 {
      GetAt(options[..|options| - 1], k, absent);
    }
  }

  /** No option is printed twice. */
  lemma KeysOnce(s: Share)
    ensures forall j, k :: 0 <= j < k < |Options(s)| ==> Options(s)[j].0 != Options(s)[k].0
  {
    assert "path"[0] == 'p' && "path"[1] == 'a' && "public"[1] == 'u';
    assert |"path"| == 4 && |"read only"| == 9 && |"guest ok"| == 8 && |"public"| == 6;
    assert |"browseable"| == 10 && |"enabled"| == 7 && |"force user"| == 10 && |"force group"| == 11;
    assert "browseable"[0] == 'b' && "force user"[0] == 'f';
  }

  lemma OptionRead(s: Share, k: nat, absent: string)
    requires k < |Options(s)|
    ensures Get(Trimmed(Options(s)), Options(s)[k].0, absent) == TrimEnd(Options(s)[k].1, IsSpace)
  {
    KeysOnce(s);
    GetAt(Trimmed(Options(s)), k, absent);
  }

  lemma PathRead(s: Share)
    ensures Get(Trimmed(Options(s)), "path", "") == TrimEnd("/" + Normalize(s.dataset), IsSpace)
  {
    OptionRead(s, 0, "");
  }

  lemma ReadOnlyRead(s: Share)
    ensures Get(Trimmed(Options(s)), "read only", "no") == TrimEnd(YesNo(s.readOnly), IsSpace)
  {
    OptionRead(s, 1, "no");
  }

  lemma GuestRead(s: Share)
    ensures Get(Trimmed(Options(s)), "guest ok", "no") == TrimEnd("yes", IsSpace)
  {
    OptionRead(s, 2, "no");
  }

  lemma EnabledRead(s: Share)
    ensures Get(Trimmed(Options(s)), "enabled", "yes") == TrimEnd(YesNo(s.enabled), IsSpace)
  {
    OptionRead(s, 5, "yes");
  }

  lemma FlagRead(b: bool)
    ensures Lower(TrimEnd(YesNo(b), IsSpace)) == "yes" <==> b
    ensures Lower(TrimEnd(YesNo(b), IsSpace)) != "no" <==> b
    ensures Lower(TrimEnd("yes", IsSpace)) == "yes"
  {
    YesNoParses(b);
  }

  lemma BlockMeta(s: Share)
    ensures MetaOf(SectionOf(s)) == Meta(ShareName(s.dataset), BlockDataset(s), s.readOnly, s.enabled)
  {
    PathRead(s);
    ReadOnlyRead(s);
    GuestRead(s);
    EnabledRead(s);
    FlagRead(s.readOnly);
    FlagRead(s.enabled);
  }

  lemma NormalTight(name: string)
    ensures Tight(Normalize(name), IsSlash)
  {
    TrimmedPart(Strip(name), IsSlash);
  }

  /** A normalized name survives its path line exactly when it does not end in a space. */
  lemma PathKeepsName(name: string)
    requires Tight(name, IsSlash)
    ensures Normalize(TrimEnd("/" + name, IsSpace)) == name <==> name == "" || !IsSpace(name[|name| - 1])
  {
    if name == "" {
      SlashAlone();
    } else if !IsSpace(name[|name| - 1]) {
      PathKept(name);
    } else {
      PathShrinks(name);
    }
  }

  lemma SlashAlone()
    ensures Normalize(TrimEnd("/" + "", IsSpace)) == ""
  {
    assert "/" + "" == "/" && TrimEnd("/", IsSpace) == "/" && Strip("/") == "/";
    assert "/"[1..] == "" && TrimStart("/", IsSlash) == TrimStart("", IsSlash) == "";
  }

  lemma PathKept(name: string)
    requires Tight(name, IsSlash) && name != "" && !IsSpace(name[|name| - 1])
    ensures Normalize(TrimEnd("/" + name, IsSpace)) == name
  {
    var path := "/" + name;
    assert path == ['/'] + name && path[|path| - 1] == name[|name| - 1];
    assert TrimEnd(path, IsSpace) == path;
    TrimTight(path, IsSpace);
    TrimAfter('/', name, IsSlash);
  }

  lemma PathShrinks(name: string)
    requires name != "" && IsSpace(name[|name| - 1])
    ensures |Normalize(TrimEnd("/" + name, IsSpace))| < |name|
  {
    var path := "/" + name;
    assert path[|path| - 1] == name[|name| - 1];
    var kept := TrimEnd(path[..|path| - 1], IsSpace);
    assert TrimEnd(path, IsSpace) == kept;
    TrimEndTail("", path, IsSpace);
    var stripped := Strip(kept);
    assert TrimStart(kept, IsSpace) == kept;
    TrimTwice(path[..|path| - 1]);
    assert stripped == kept && stripped[0] == '/';
    assert TrimStart(stripped, IsSlash) == TrimStart(stripped[1..], IsSlash);
  }

  // ── Print, then parse ───────────────────────────────────────────────────

  function Printed(shares: seq<Share>): string {
    Unlines(Region(shares))
  }

  ghost predicate AllClean(shares: seq<Share>) {
    forall k :: 0 <= k < |shares| ==> Clean(Normalize(shares[k].dataset))
  }

  lemma {:induction false} RegionBreaks(shares: seq<Share>)
    requires forall k :: 0 <= k < |shares| ==> NoBreak(Normalize(shares[k].dataset))
    ensures NoBreaks(Region(shares))
  {
    if shares != [] {
      RegionBreaks(shares[..|shares| - 1]);
      BlockBreaks(shares[|shares| - 1]);
    }
  }

  lemma SettingBreaks(o: (string, string))
    requires PlainKey(o.0) && NoBreak(o.1)
    ensures NoBreak(SettingLine(o))
  {
  }

  lemma BlockBreaks(s: Share)
    requires NoBreak(Normalize(s.dataset))
    ensures NoBreaks(BlockLines(s))
  {
    AllPrintable(s);
    ValuesBreakFree(s);
    SettingsBreakFree(Options(s));
    assert NoBreak("[" + ShareName(s.dataset) + "]");
  }

  lemma ValuesBreakFree(s: Share)
    requires NoBreak(Normalize(s.dataset))
    ensures forall k :: 0 <= k < |Options(s)| ==> NoBreak(Options(s)[k].1)
  {
    assert NoBreak("/" + Normalize(s.dataset)) && NoBreak("yes") && NoBreak("no") && NoBreak(ANON_USER);
  }

  lemma SettingsBreakFree(options: seq<(string, string)>)
    requires forall k :: 0 <= k < |options| ==> Printable(options[k]) && NoBreak(options[k].1)
    ensures NoBreaks(SettingLines(options))
  {
    forall k | 0 <= k < |options| ensures NoBreak(SettingLine(options[k])) {
      SettingBreaks(options[k]);
    }
  }

  /** What printing and parsing make of shares whose names hold no line break. */
  lemma ParsedMetas(shares: seq<Share>)
    requires forall k :: 0 <= k < |shares| ==> NoBreak(Normalize(shares[k].dataset))
    ensures var metas := Metas(Sections(Split(Printed(shares))));
            |metas| == |shares| && forall k :: 0 <= k < |shares| ==>
              metas[k] == Expected(shares[k]).(dataset := BlockDataset(shares[k]))
  {
    PrintedSections(shares);
    forall k | 0 <= k < |shares| ensures MetaOf(SectionsOf(shares)[k]) == Expected(shares[k]).(dataset := BlockDataset(shares[k])) {
      BlockMeta(shares[k]);
    }
  }

  lemma PrintedSections(shares: seq<Share>)
    requires forall k :: 0 <= k < |shares| ==> NoBreak(Normalize(shares[k].dataset))
    ensures Sections(Split(Printed(shares))) == SectionsOf(shares)
  {
    RegionBreaks(shares);
    SplitUnlines(Region(shares), "");
    assert Unlines(Region(shares)) + "" == Printed(shares) && Region(shares) + [] == Region(shares);
    RegionAdds([], shares);
    assert [] + Region(shares) == Region(shares) && [] + SectionsOf(shares) == SectionsOf(shares);
  }

  ghost predicate BreakFree(sections: seq<Section>) {
    forall k, i :: 0 <= k < |sections| && 0 <= i < |sections[k].options| ==> NoBreak(sections[k].options[i].1)
  }

  lemma ValueHasNoBreak(line: string)
    requires NoBreak(line) && Classify(line).Setting?
    ensures NoBreak(Classify(line).value)
  {
    TrimmedPart(line, IsSpace);
    var l := Strip(line);
    TrimmedPart(l[Find(l, '=') + 1..], IsSpace);
  }

  lemma {:induction false} SectionsBreakFree(lines: seq<string>)
    requires NoBreaks(lines)
    ensures BreakFree(Sections(lines))
  {
    if lines != [] {
      SectionsBreakFree(lines[..|lines| - 1]);
      var last := lines[|lines| - 1];
      if Classify(last).Setting? { ValueHasNoBreak(last); }
    }
  }

  lemma {:induction false} GotNoBreak(options: seq<(string, string)>, key: string, absent: string)
    requires NoBreak(absent) && forall i :: 0 <= i < |options| ==> NoBreak(options[i].1)
    ensures NoBreak(Get(options, key, absent))
  {
    if options != [] { GotNoBreak(options[..|options| - 1], key, absent); }
  }

  /** No parsed name holds a line break. */
  lemma ParsedHaveNoBreak(sections: seq<Section>, k: nat)
    requires BreakFree(sections) && k < |sections|
    ensures NoBreak(MetaOf(sections[k]).dataset)
  {
    var options := sections[k].options;
    GotNoBreak(options, "path", "");
    var path := Get(options, "path", "");
    TrimmedPart(path, IsSpace);
    TrimmedPart(Strip(path), IsSlash);
  }

  /**
   * Parsing what was printed gives back every share, name, dataset and flags, exactly when no normalized
   * name holds a line break or ends in a space.
   */
  lemma ParsesBackExactly(shares: seq<Share>)
    ensures Metas(Sections(Split(Printed(shares)))) == ExpectedAll(shares)
            <==> AllClean(shares)
  {
    if Metas(Sections(Split(Printed(shares)))) == ExpectedAll(shares) {
      SectionsBreakFree(Split(Printed(shares)));
      forall k | 0 <= k < |shares| ensures NoBreak(Normalize(shares[k].dataset)) {
        assert Metas(Sections(Split(Printed(shares))))[k] == ExpectedAll(shares)[k];
        ParsedHaveNoBreak(Sections(Split(Printed(shares))), k);
      }
    }
    if forall k :: 0 <= k < |shares| ==> NoBreak(Normalize(shares[k].dataset)) {
      ParsedMetas(shares);
      MetasAreExpected(shares, Metas(Sections(Split(Printed(shares)))));
    }
  }

  function ExpectedAll(shares: seq<Share>): seq<Meta> {
    seq(|shares|, k requires 0 <= k < |shares| => Expected(shares[k]))
  }

  lemma MetasAreExpected(shares: seq<Share>, metas: seq<Meta>)
    requires forall k :: 0 <= k < |shares| ==> NoBreak(Normalize(shares[k].dataset))
    requires |metas| == |shares| && forall k :: 0 <= k < |shares| ==>
               metas[k] == Expected(shares[k]).(dataset := BlockDataset(shares[k]))
    ensures metas == ExpectedAll(shares) <==> AllClean(shares)
  {
    forall k | 0 <= k < |shares| ensures metas[k] == Expected(shares[k]) <==> Clean(Normalize(shares[k].dataset)) {
      NormalTight(shares[k].dataset);
      PathKeepsName(Normalize(shares[k].dataset));
    }
    if metas == ExpectedAll(shares) {
      assert forall k :: 0 <= k < |shares| ==> metas[k] == ExpectedAll(shares)[k];
    }
  }

  // ── The region in the file ──────────────────────────────────────────────

  const BEGIN := "# ===== " + "NAZMan managed " + "shares (do not edit)" + " ====="
  const END := "# ===== " + "end NAZMan " + "managed shares" + " ====="

  function LastAt(lines: seq<string>, marker: string): (k: Option<nat>)
    ensures k.Some? ==> k.value < |lines| && Strip(lines[k.value]) == marker
    ensures k.Some? ==> forall i :: k.value < i < |lines| ==> Strip(lines[i]) != marker
    ensures k.None? <==> forall i :: 0 <= i < |lines| ==> Strip(lines[i]) != marker
  {
    if lines == [] then None
    else if Strip(lines[|lines| - 1]) == marker then Some(|lines| - 1)
    else LastAt(lines[..|lines| - 1], marker)
  }

  /** Where the markers are: the last of each. */
  method Markers(lines: seq<string>) returns (start: Option<nat>, end: Option<nat>)
    ensures start == LastAt(lines, BEGIN) && end == LastAt(lines, END)
  {
    start, end := None, None;
    var i := 0;
    while i < |lines|
      invariant 0 <= i <= |lines| && start == LastAt(lines[..i], BEGIN) && end == LastAt(lines[..i], END)
    {
      assert lines[..i + 1][..i] == lines[..i];
      MarkersDiffer();
      if Strip(lines[i]) == BEGIN {
        start := Some(i);
      } else if Strip(lines[i]) == END {
        end := Some(i);
      }
      i := i + 1;
    }
    assert lines[..i] == lines;
  }

  lemma MarkersDiffer()
    ensures BEGIN != END && BEGIN != "" && END != "" && BEGIN[0] == '#' && END[0] == '#'
    ensures Tight(BEGIN, IsSpace) && Tight(END, IsSpace)
  {
    assert BEGIN[|BEGIN| - 1] == '=' && END[|END| - 1] == '=';
    assert BEGIN[8] == 'N' && END[8] == 'e';
  }

  function Managed(lines: seq<string>): seq<Meta> {
    Between(lines, BEGIN, END)
  }

  /** The shares described between the last of each of two markers. */
  function Between(lines: seq<string>, b: string, e: string): seq<Meta> {
    Metas(SectionsBetween(lines, b, e))
  }

  function SectionsBetween(lines: seq<string>, b: string, e: string): seq<Section> {
    var start, end := LastAt(lines, b), LastAt(lines, e);
    if start.None? || end.None? || end.value <= start.value then []
    else Sections(Split(Joined(lines[start.value..end.value])))
  }

  /** `_managed_shares`. */
  method ManagedShares(text: string) returns (metas: seq<Meta>)
    ensures metas == Managed(Split(text))
  {
    var lines := Split(text);
    var start, end := Markers(lines);
    if start.None? || end.None? || end.value <= start.value { return []; }
    var sections := SplitSections(Joined(lines[start.value..end.value]));
    metas := Metas(sections);
  }

  predicate Stays(name: string, replaced: Option<string>, removed: Option<string>) {
    name != "" && Some(name) != replaced && Some(name) != removed
  }

  function Names(metas: seq<Meta>): (names: seq<string>)
    ensures |names| == |metas|
  {
    seq(|metas|, k requires 0 <= k < |metas| => metas[k].dataset)
  }

  function Kept(names: seq<string>, replaced: Option<string>, removed: Option<string>): seq<string> {
    if names == [] then []
    else
      Kept(names[..|names| - 1], replaced, removed)
      + if Stays(names[|names| - 1], replaced, removed) then [names[|names| - 1]] else []
  }

  lemma {:induction false} KeptExactly(names: seq<string>, replaced: Option<string>, removed: Option<string>)
    ensures forall n :: n in Kept(names, replaced, removed) <==> n in names && Stays(n, replaced, removed)
  {
    if names != [] {
      KeptExactly(names[..|names| - 1], replaced, removed);
      assert names == names[..|names| - 1] + [names[|names| - 1]];
    }
  }

  lemma KeptOne(n: string, replaced: Option<string>, removed: Option<string>)
    ensures Kept([n], replaced, removed) == if n != "" && replaced != Some(n) && removed != Some(n) then [n] else []
  {
    assert [n][..0] == [];
  }

  lemma KeptNext(names: seq<string>, n: string, replaced: Option<string>, removed: Option<string>)
    ensures Kept(names + [n], replaced, removed) == Kept(names, replaced, removed) + Kept([n], replaced, removed)
  {
    assert (names + [n])[..|names|] == names && [n][..0] == [];
  }

  /** They are kept in the order they had. */
  lemma {:induction false} KeptInOrder(a: seq<string>, b: seq<string>, replaced: Option<string>, removed: Option<string>)
    ensures Kept(a + b, replaced, removed) == Kept(a, replaced, removed) + Kept(b, replaced, removed)
  {
    if b == [] {
      assert a + b == a;
    } else {
      hide Kept;
      var init, n := b[..|b| - 1], b[|b| - 1];
      KeptInOrder(a, init, replaced, removed);
      assert a + b == (a + init) + [n] && b == init + [n];
      KeptNext(a + init, n, replaced, removed);
      KeptNext(init, n, replaced, removed);
      Assoc(Kept(a, replaced, removed), Kept(init, replaced, removed), Kept([n], replaced, removed));
    }
  }

  /** Kept shares are printed again writable and enabled, whatever they were. */
  function Rerendered(names: seq<string>): seq<Share> {
    seq(|names|, k requires 0 <= k < |names| => Share(names[k], false, true))
  }

  function WithSet(names: seq<string>, set_: Option<Share>): seq<Share> {
    Rerendered(names) + if set_.Some? then [set_.value] else []
  }

  function NewText(head: seq<string>, shares: seq<Share>, tail: seq<string>): string {
    (if Joined(head) != "" then Joined(head) + "\n" else "")
    + Unlines([BEGIN] + Region(shares) + [END])
    + (if Joined(tail) != "" then "\n" + Joined(tail) else "")
  }

  function HeadAt(lines: seq<string>, start: Option<nat>): seq<string>
    requires start.Some? ==> start.value < |lines|
  {
    if start.Some? then lines[..start.value] else []
  }

  function TailAt(lines: seq<string>, end: Option<nat>): seq<string>
    requires end.Some? ==> end.value < |lines|
  {
    if end.Some? then lines[end.value + 1..] else lines
  }

  function HeadOf(lines: seq<string>): seq<string> {
    HeadAt(lines, LastAt(lines, BEGIN))
  }

  function TailOf(lines: seq<string>): seq<string> {
    TailAt(lines, LastAt(lines, END))
  }

  /** `_block_dataset`: what the path line says, which ends at the first line break of the name. */
  function Replaced(set_: Option<Share>): Option<string> {
    if set_.None? then None
    else
      var name := Normalize(set_.value.dataset);
      Some(Normalize(TrimEnd("/" + name[..FirstBreak(name)], IsSpace)))
  }

  /** A name of one line is replaced as its block reads. */
  lemma OneLineReplaced(s: Share)
    requires NoBreak(Normalize(s.dataset))
    ensures Replaced(Some(s)) == Some(BlockDataset(s))
  {
    var name := Normalize(s.dataset);
    assert name[..|name|] == name;
  }

  /** The shares of the new region: those managed so far but the replaced and the removed, then the one set. */
  function NewShares(lines: seq<string>, set_: Option<Share>, removed: Option<string>): seq<Share> {
    WithSet(KeptOf(lines, set_, removed), set_)
  }

  /** Rebuild the text around the new region. */
  method RewriteText(text: string, set_: Option<Share>, removed: Option<string>) returns (newText: string)
    ensures newText == NewText(HeadOf(Split(text)), NewShares(Split(text), set_, removed), TailOf(Split(text)))
  {
    var lines := Split(text);
    var start, end := Markers(lines);
    var keep := KeepManaged(text, start, end, Replaced(set_), removed);
    newText := Assemble(HeadAt(lines, start), WithSet(keep, set_), TailAt(lines, end));
  }

  /** The datasets managed so far, without the one that is replaced and the one that is removed. */
  method KeepManaged(text: string, start: Option<nat>, end: Option<nat>, replaced: Option<string>, removed: Option<string>)
    returns (keep: seq<string>)
    requires start == LastAt(Split(text), BEGIN) && end == LastAt(Split(text), END)
    ensures keep == Kept(Names(Managed(Split(text))), replaced, removed)
  {
    if start.Some? && end.Some? && end.value > start.value + 1 {
      var metas := ManagedShares(text);
      keep := KeepNames(metas, replaced, removed);
    } else {
      NothingBetween(Split(text));
      keep := [];
    }
  }

  method Assemble(before: seq<string>, shares: seq<Share>, after: seq<string>) returns (newText: string)
    ensures newText == NewText(before, shares, after)
  {
    var region := Unlines([BEGIN] + Region(shares) + [END]);
    var head, tail := Joined(before), Joined(after);
    if head != "" { head := head + "\n"; }
    if tail != "" { tail := "\n" + tail; }
    newText := head + region + tail;
  }

  method KeepNames(metas: seq<Meta>, replaced: Option<string>, removed: Option<string>) returns (keep: seq<string>)
    ensures keep == Kept(Names(metas), replaced, removed)
  {
    keep := [];
    var n := 0;
    while n < |metas|
      invariant 0 <= n <= |metas| && keep == Kept(Names(metas)[..n], replaced, removed)
    {
      assert Names(metas)[..n + 1][..n] == Names(metas)[..n];
      var ds := metas[n].dataset;
      if ds != "" && Some(ds) != replaced && Some(ds) != removed {
        keep := keep + [ds];
      }
      n := n + 1;
    }
    assert Names(metas)[..n] == Names(metas);
  }

  /** With nothing between the markers, nothing is managed. */
  lemma NothingBetween(lines: seq<string>)
    requires NoBreaks(lines)
    requires var start, end := LastAt(lines, BEGIN), LastAt(lines, END);
             start.None? || end.None? || end.value <= start.value + 1
    ensures Managed(lines) == []
  {
    var start, end := LastAt(lines, BEGIN), LastAt(lines, END);
    if start.Some? && end.Some? && end.value == start.value + 1 {
      var only := lines[start.value..end.value];
      assert only == [lines[start.value]] && Joined(only) == lines[start.value];
      MarkerAlone(lines[start.value]);
    }
  }

  lemma MarkerAlone(line: string)
    requires NoBreak(line) && Strip(line) == BEGIN
    ensures Sections(Split(line)) == []
  {
    MarkersDiffer();
    NoBreakAt(line);
    assert line != "" && line[..|line|] == line;
    assert Split(line) == [line];
    SectionsNext([], line);
    assert [] + [line] == [line];
  }

  // ── What a rewrite changes ──────────────────────────────────────────────

  ghost predicate NoMarkers(lines: seq<string>) {
    Unmarked(lines, BEGIN, END)
  }

  /** No markers at all, or just one that opens the region, and none that closes it before or behind. */
  ghost predicate WellFenced(lines: seq<string>) {
    var start, end := LastAt(lines, BEGIN), LastAt(lines, END);
    && (start.Some? <==> end.Some?) && (start.Some? ==> start.value < end.value)
    && forall i :: 0 <= i < |lines| ==>
         && (Strip(lines[i]) == BEGIN ==> start == Some(i))
         && (Strip(lines[i]) == END ==> start.Some? && start.value <= i <= end.value)
  }

  lemma OutsideUnmarked(lines: seq<string>)
    requires WellFenced(lines)
    ensures NoMarkers(HeadOf(lines)) && NoMarkers(TailOf(lines))
  {
  }

  function Fence(shares: seq<Share>): seq<string> {
    [BEGIN] + Region(shares) + [END]
  }

  lemma JoinBreakFree(a: string, b: string)
    requires NoBreak(a) && NoBreak(b)
    ensures NoBreak(a + b)
  {
  }

  lemma PiecesBreakFree()
    ensures NoBreak("# ===== ") && NoBreak(" =====") && NoBreak("end NAZMan ") && NoBreak("managed shares")
  {
  }

  lemma LongPiecesBreakFree()
    ensures NoBreak("NAZMan managed ") && NoBreak("shares (do not edit)")
  {
  }

  lemma MarkersBreakFree()
    ensures NoBreak(BEGIN) && NoBreak(END)
  {
    PiecesBreakFree();
    LongPiecesBreakFree();
    JoinBreakFree("# ===== ", "NAZMan managed ");
    JoinBreakFree("# ===== " + "NAZMan managed ", "shares (do not edit)");
    JoinBreakFree("# ===== " + "NAZMan managed " + "shares (do not edit)", " =====");
    JoinBreakFree("# ===== ", "end NAZMan ");
    JoinBreakFree("# ===== " + "end NAZMan ", "managed shares");
    JoinBreakFree("# ===== " + "end NAZMan " + "managed shares", " =====");
  }

  lemma FenceBreaks(shares: seq<Share>)
    requires forall k :: 0 <= k < |shares| ==> NoBreak(Normalize(shares[k].dataset))
    ensures NoBreaks(Fence(shares))
  {
    RegionBreaks(shares);
    MarkersBreakFree();
  }

  lemma OpenFence(shares: seq<Share>)
    requires NoBreaks(Fence(shares))
    ensures NoBreaks([BEGIN] + Region(shares))
  {
    var fence, range := Fence(shares), [BEGIN] + Region(shares);
    assert forall k :: 0 <= k < |range| ==> range[k] == fence[k];
  }

  lemma TailLines(tail: seq<string>) returns (post: seq<string>)
    requires NoBreaks(tail)
    ensures Split(if Joined(tail) != "" then "\n" + Joined(tail) else "") == post && NonBlank(post) == NonBlank(tail)
  {
    var j := Joined(tail);
    JoinedKeeps(tail);
    post := if j != "" then [""] + Split(j) else [];
    if j != "" {
      SplitLine("", j);
      assert "" + "\n" + j == "\n" + j;
      NonBlankJoin([""], Split(j));
      assert NonBlank([""]) == NonBlank([]) + [];
    }
  }

  lemma HeadLines(head: seq<string>, rest: string) returns (pre: seq<string>)
    requires NoBreaks(head)
    ensures Split((if Joined(head) != "" then Joined(head) + "\n" else "") + rest) == pre + Split(rest)
    ensures NonBlank(pre) == NonBlank(head)
  {
    JoinedKeeps(head);
    if Joined(head) != "" {
      pre := head;
      JoinedIsUnlines(head);
      SplitUnlines(head, rest);
    } else {
      pre := [];
      assert "" + rest == rest;
    }
  }

  /** The rewritten file, line by line: all lines outside the region that are not blank, in order. */
  lemma NewTextLines(head: seq<string>, shares: seq<Share>, tail: seq<string>) returns (pre: seq<string>, post: seq<string>)
    requires NoBreaks(head) && NoBreaks(tail) && NoBreaks(Fence(shares))
    ensures Split(NewText(head, shares, tail)) == pre + (Fence(shares) + post)
    ensures NonBlank(pre) == NonBlank(head) && NonBlank(post) == NonBlank(tail)
  {
    post := TailLines(tail);
    var suffix := if Joined(tail) != "" then "\n" + Joined(tail) else "";
    SplitUnlines(Fence(shares), suffix);
    pre := HeadLines(head, Unlines(Fence(shares)) + suffix);
    Assoc(if Joined(head) != "" then Joined(head) + "\n" else "", Unlines(Fence(shares)), suffix);
  }

  lemma {:induction false} NonBlankMembers(lines: seq<string>)
    ensures forall l :: l in NonBlank(lines) <==> l in lines && Strip(l) != ""
  {
    if lines != [] {
      NonBlankMembers(lines[..|lines| - 1]);
      assert lines == lines[..|lines| - 1] + [lines[|lines| - 1]];
    }
  }

  lemma SameMarkers(a: seq<string>, b: seq<string>)
    requires NonBlank(a) == NonBlank(b) && NoMarkers(b)
    ensures NoMarkers(a)
  {
    NonBlankMembers(a);
    NonBlankMembers(b);
    MarkersDiffer();
    forall k | 0 <= k < |a| ensures Strip(a[k]) != BEGIN && Strip(a[k]) != END {
      if Strip(a[k]) != "" {
        assert a[k] in NonBlank(b);
        var j :| 0 <= j < |b| && b[j] == a[k];
      }
    }
  }

  lemma BlockMarkers(s: Share)
    ensures NoMarkers(BlockLines(s))
  {
    MarkersDiffer();
    AllPrintable(s);
    var header, options := "[" + ShareName(s.dataset) + "]", Options(s);
    TrimTight(header, IsSpace);
    assert Strip(header)[0] == '[';
    forall k | 0 <= k < |options| ensures Strip(SettingLine(options[k])) != BEGIN && Strip(SettingLine(options[k])) != END {
      assert Printable(options[k]);
      StrippedSetting(options[k].0, options[k].1);
      assert Strip(SettingLine(options[k]))[0] == options[k].0[0];
    }
  }

  lemma {:induction false} RegionMarkers(shares: seq<Share>)
    ensures NoMarkers(Region(shares))
  {
    if shares != [] {
      RegionMarkers(shares[..|shares| - 1]);
      BlockMarkers(shares[|shares| - 1]);
    }
  }

  lemma {:induction false} LastAtIs(lines: seq<string>, marker: string, k: nat)
    requires k < |lines| && Strip(lines[k]) == marker && forall j :: k < j < |lines| ==> Strip(lines[j]) != marker
    ensures LastAt(lines, marker) == Some(k)
  {
    if k < |lines| - 1 {
      LastAtIs(lines[..|lines| - 1], marker, k);
    }
  }

  lemma {:induction false} SectionsNonBlank(lines: seq<string>)
    ensures Sections(NonBlank(lines)) == Sections(lines)
  {
    if lines != [] {
      var init, last := lines[..|lines| - 1], lines[|lines| - 1];
      SectionsNonBlank(init);
      SectionsNext(NonBlank(init), last);
      assert Strip(last) == "" ==> NonBlank(lines) == NonBlank(init) && Classify(last).Noise?;
    }
  }

  lemma {:induction false} SectionsSkip(noise: string, lines: seq<string>)
    requires Classify(noise).Noise?
    ensures Sections([noise] + lines) == Sections(lines)
  {
    if lines == [] {
      assert [noise] + lines == [] + [noise];
      SectionsNext([], noise);
    } else {
      var init, last := lines[..|lines| - 1], lines[|lines| - 1];
      SectionsSkip(noise, init);
      SectionsNext([noise] + init, last);
      assert [noise] + lines == [noise] + init + [last];
    }
  }

  /** No line is one of two markers. */
  ghost predicate Unmarked(lines: seq<string>, b: string, e: string) {
    forall k :: 0 <= k < |lines| ==> Strip(lines[k]) != b && Strip(lines[k]) != e
  }

  /** The two markers sit at m and n and nowhere else. */
  ghost predicate OnlyAt(lines: seq<string>, b: string, e: string, m: nat, n: nat) {
    && m < n < |lines| && lines[m] == b && lines[n] == e
    && forall j :: 0 <= j < |lines| && j != m && j != n ==> Strip(lines[j]) != b && Strip(lines[j]) != e
  }

  lemma FenceFound(lines: seq<string>, b: string, e: string, m: nat, n: nat)
    requires OnlyAt(lines, b, e, m, n) && Strip(b) == b && Strip(e) == e && b != e
    ensures LastAt(lines, b) == Some(m) && LastAt(lines, e) == Some(n)
  {
    LastAtIs(lines, b, m);
    LastAtIs(lines, e, n);
  }

  lemma FencedLines(
    lines: seq<string>, pre: seq<string>, region: seq<string>, post: seq<string>, b: string, e: string, m: nat, n: nat)
    requires lines == pre + ([b] + region + [e] + post) && m == |pre| && n == |pre| + 1 + |region|
    ensures n <= |lines| && lines[m..n] == [b] + region
  {
  }

  /** What is described between two markers that have just these shares between them. */
  lemma BetweenAt(lines: seq<string>, b: string, e: string, m: nat, n: nat, shares: seq<Share>)
    requires OnlyAt(lines, b, e, m, n) && Strip(b) == b && Strip(e) == e && b != e && lines[m..n] == [b] + Region(shares)
    requires NoBreaks([b] + Region(shares)) && Classify(b).Noise?
    ensures SectionsBetween(lines, b, e) == SectionsOf(shares)
  {
    FenceFound(lines, b, e, m, n);
    RegionReadBack(shares, b);
  }

  /** The lines of a region, joined and split again, are read back as its shares. */
  lemma RegionReadBack(shares: seq<Share>, b: string)
    requires NoBreaks([b] + Region(shares)) && Classify(b).Noise?
    ensures Sections(Split(Joined([b] + Region(shares)))) == SectionsOf(shares)
  {
    var range := [b] + Region(shares);
    JoinedKeeps(range);
    SectionsNonBlank(Split(Joined(range)));
    SectionsNonBlank(range);
    SectionsSkip(b, Region(shares));
    RegionAdds([], shares);
    assert [] + Region(shares) == Region(shares) && [] + SectionsOf(shares) == SectionsOf(shares);
  }

  lemma MarkerLines()
    ensures Strip(BEGIN) == BEGIN && Strip(END) == END && Classify(BEGIN).Noise? && BEGIN != END
  {
    MarkersDiffer();
    TrimTight(BEGIN, IsSpace);
    TrimTight(END, IsSpace);
  }

  lemma FenceAt(
    lines: seq<string>, pre: seq<string>, region: seq<string>, post: seq<string>, b: string, e: string, m: nat, n: nat)
    requires Unmarked(pre, b, e) && Unmarked(post, b, e) && Unmarked(region, b, e)
    requires lines == pre + ([b] + region + [e] + post) && m == |pre| && n == |pre| + 1 + |region|
    ensures OnlyAt(lines, b, e, m, n)
  {
    forall j | 0 <= j < |lines| && j != m && j != n ensures Strip(lines[j]) != b && Strip(lines[j]) != e {
      if j < m {
        assert lines[j] == pre[j];
      } else if j < n {
        assert lines[j] == region[j - m - 1];
      } else {
        assert lines[j] == post[j - n - 1];
      }
    }
  }

  // ── The theorem ─────────────────────────────────────────────────────────

  /** The name comes back as itself when it is printed and parsed again. */
  predicate Stable(name: string) {
    Normalize(name) == name && Clean(name)
  }

  ghost predicate AllStable(names: seq<string>) {
    forall k :: 0 <= k < |names| ==> Stable(names[k])
  }

  lemma NormalNoBreak(name: string)
    requires NoBreak(name)
    ensures NoBreak(Normalize(name)) && |Normalize(name)| <= |name|
  {
    TrimmedPart(name, IsSpace);
    TrimmedPart(Strip(name), IsSlash);
  }

  /** A name is read back from its block exactly when it is stable. */
  lemma BackExactly(name: string, readOnly: bool, enabled: bool)
    requires NoBreak(name)
    ensures BlockDataset(Share(name, readOnly, enabled)) == name <==> Stable(name)
  {
    NormalNoBreak(name);
    NormalTight(name);
    PathKeepsName(Normalize(name));
    if Normalize(name) != "" && IsSpace(Normalize(name)[|Normalize(name)| - 1]) {
      PathShrinks(Normalize(name));
    }
  }

  /** The set one's normalized name is read back exactly when it is clean. */
  lemma SetBackExactly(s: Share)
    requires NoBreak(Normalize(s.dataset))
    ensures BlockDataset(s) == Normalize(s.dataset) <==> Clean(Normalize(s.dataset))
  {
    NormalTight(s.dataset);
    PathKeepsName(Normalize(s.dataset));
  }

  function BlockDatasets(shares: seq<Share>): (names: seq<string>)
    ensures |names| == |shares|
  {
    seq(|shares|, k requires 0 <= k < |shares| => BlockDataset(shares[k]))
  }

  lemma NamesOfBlocks(shares: seq<Share>)
    ensures Names(Metas(SectionsOf(shares))) == BlockDatasets(shares)
  {
    forall k | 0 <= k < |shares| ensures Names(Metas(SectionsOf(shares)))[k] == BlockDatasets(shares)[k] {
      BlockMeta(shares[k]);
    }
  }

  /** Everything that goes into the region prints soundly. */
  ghost predicate PrintsSoundly(names: seq<string>, set_: Option<Share>) {
    AllStable(names) && (set_.Some? ==> Clean(Normalize(set_.value.dataset)))
  }

  lemma NamesBackExactly(names: seq<string>, set_: Option<Share>)
    requires NoBreaks(names) && (set_.Some? ==> NoBreak(Normalize(set_.value.dataset)))
    ensures BlockDatasets(WithSet(names, set_)) == names + SetName(set_) <==> PrintsSoundly(names, set_)
  {
    var back, want := BlockDatasets(WithSet(names, set_)), names + SetName(set_);
    forall k | 0 <= k < |names| ensures back[k] == want[k] <==> Stable(names[k]) {
      BackExactly(names[k], false, true);
    }
    if set_.Some? {
      SetBackExactly(set_.value);
      assert back[|names|] == BlockDataset(set_.value) && want[|names|] == Normalize(set_.value.dataset);
    }
    if back == want {
      assert forall k :: 0 <= k < |names| ==> back[k] == want[k];
    }
  }

  /** Names read from a region hold no line break. */
  lemma ManagedNoBreak(lines: seq<string>, n: string)
    requires n in Names(Managed(lines))
    ensures NoBreak(n)
  {
    var start, end := LastAt(lines, BEGIN), LastAt(lines, END);
    var sections := Sections(Split(Joined(lines[start.value..end.value])));
    SectionsBreakFree(Split(Joined(lines[start.value..end.value])));
    var k :| 0 <= k < |sections| && MetaOf(sections[k]).dataset == n;
    ParsedHaveNoBreak(sections, k);
  }

  lemma ManagedNoBreaks(lines: seq<string>)
    ensures NoBreaks(Names(Managed(lines)))
  {
    var names := Names(Managed(lines));
    forall k | 0 <= k < |names| ensures NoBreak(names[k]) {
      assert names[k] in names;
      ManagedNoBreak(lines, names[k]);
    }
  }

  lemma {:induction false} KeptNoBreak(names: seq<string>, replaced: Option<string>, removed: Option<string>)
    requires NoBreaks(names)
    ensures NoBreaks(Kept(names, replaced, removed))
  {
    if names != [] {
      KeptNoBreak(names[..|names| - 1], replaced, removed);
    }
  }

  /** The line `path = / a /` is read as one name and printed again as another. */
  lemma UnstableLine()
    ensures Classify(SettingLine(("path", "/ a /"))) == Setting("path", "/ a /")
    ensures Normalize("/ a /") == " a " && BlockDataset(Share(" a ", false, true)) == "a" && !Stable(" a ")
  {
    PathPlain();
    SlashedTight();
    SettingParses("path", "/ a /");
    SlashesOff();
    SpacesOff();
    PathKept("a");
  }

  lemma PathPlain()
    ensures PlainKey("path")
  {
  }

  lemma SlashedTight()
    ensures TrimEnd("/ a /", IsSpace) == "/ a /"
  {
  }

  lemma SlashesOff()
    ensures Normalize("/ a /") == " a "
  {
    var t := "/ a /";
    TrimTight(t, IsSpace);
    assert t == ['/'] + " a /" && " a /" == " a " + "/";
    TrimAfter('/', " a /", IsSlash);
    TrimEndAll(" a ", "/", IsSlash);
  }

  lemma SpacesOff()
    ensures Normalize(" a ") == "a"
  {
    assert " a " == [' '] + "a " && "a " == "a" + " ";
    TrimAfter(' ', "a ", IsSpace);
    TrimEndAll("a", " ", IsSpace);
    TrimTight("a", IsSlash);
  }

  /** Whatever flags a kept share had, it is writable and enabled after the rewrite; the one set keeps its own. */
  lemma FlagsReset(names: seq<string>, set_: Option<Share>, k: nat)
    requires k < |WithSet(names, set_)|
    ensures var meta := Metas(SectionsOf(WithSet(names, set_)))[k];
            if k < |names| then !meta.readOnly && meta.enabled
            else set_.Some? && meta.readOnly == set_.value.readOnly && meta.enabled == set_.value.enabled
  {
    BlockMeta(WithSet(names, set_)[k]);
  }

  /** The lines are a region of these shares with all lines around it that are not blank, in order. */
  ghost predicate Around(lines: seq<string>, head: seq<string>, shares: seq<Share>, tail: seq<string>) {
    exists pre, post :: AroundAt(lines, head, shares, tail, pre, post)
  }

  ghost predicate AroundAt(
    lines: seq<string>, head: seq<string>, shares: seq<Share>, tail: seq<string>, pre: seq<string>, post: seq<string>)
  {
    lines == pre + (Fence(shares) + post) && NonBlank(pre) == NonBlank(head) && NonBlank(post) == NonBlank(tail)
  }

  function SetName(set_: Option<Share>): seq<string> {
    if set_.Some? then [Normalize(set_.value.dataset)] else []
  }

  /**
   * Writing a region around which no marker is left: the datasets managed are those kept and the one set
   * exactly when the names print soundly, and unless the name set breaks its line, every line outside the
   * region that is not blank is kept, in order.
   */
  lemma RewriteChangesOne(head: seq<string>, names: seq<string>, set_: Option<Share>, tail: seq<string>)
    requires NoBreaks(head) && NoBreaks(tail) && NoMarkers(head) && NoMarkers(tail)
    requires NoBreaks(names)
    ensures Names(Managed(Split(NewText(head, WithSet(names, set_), tail)))) == names + SetName(set_)
            <==> PrintsSoundly(names, set_)
    ensures (set_.Some? ==> NoBreak(Normalize(set_.value.dataset))) ==>
              Around(Split(NewText(head, WithSet(names, set_), tail)), head, WithSet(names, set_), tail)
              && WritesShares(Split(NewText(head, WithSet(names, set_), tail)), names, set_)
  {
    if set_.Some? && !NoBreak(Normalize(set_.value.dataset)) {
      BrokenNameLost(Split(NewText(head, WithSet(names, set_), tail)), names, set_.value);
    } else {
      RewriteReadBack(head, names, set_, tail);
      NamesBackExactly(names, set_);
    }
  }

  /** A name with a line break in it is never read back. */
  lemma BrokenNameLost(lines: seq<string>, names: seq<string>, s: Share)
    requires !NoBreak(Normalize(s.dataset))
    ensures Names(Managed(lines)) != names + SetName(Some(s))
  {
    if Names(Managed(lines)) == names + SetName(Some(s)) {
      assert (names + SetName(Some(s)))[|names|] == Normalize(s.dataset);
      ManagedNoBreak(lines, Normalize(s.dataset));
    }
  }

  lemma RewriteReadBack(head: seq<string>, names: seq<string>, set_: Option<Share>, tail: seq<string>)
    requires NoBreaks(head) && NoBreaks(tail) && NoMarkers(head) && NoMarkers(tail)
    requires NoBreaks(names) && (set_.Some? ==> NoBreak(Normalize(set_.value.dataset)))
    ensures Around(Split(NewText(head, WithSet(names, set_), tail)), head, WithSet(names, set_), tail)
    ensures Names(Managed(Split(NewText(head, WithSet(names, set_), tail)))) == BlockDatasets(WithSet(names, set_))
    ensures WritesShares(Split(NewText(head, WithSet(names, set_), tail)), names, set_)
  {
    var shares := WithSet(names, set_);
    SharesBreakFree(names, set_);
    var pre, post := NewTextLines(head, shares, tail);
    var lines := Split(NewText(head, shares, tail));
    assert AroundAt(lines, head, shares, tail, pre, post);
    SameMarkers(pre, head);
    SameMarkers(post, tail);
    ManagedOf(lines, pre, shares, post);
    NamesOfBlocks(shares);
    SectionsSay(lines, names, set_);
  }

  lemma SectionsSay(lines: seq<string>, names: seq<string>, set_: Option<Share>)
    requires SectionsBetween(lines, BEGIN, END) == SectionsOf(WithSet(names, set_))
    ensures WritesShares(lines, names, set_)
  {
    var shares := WithSet(names, set_);
    forall k | 0 <= k < |shares| ensures SaysShare(SectionsOf(shares)[k], shares[k].dataset, shares[k].readOnly, shares[k].enabled) {
      SectionSays(shares[k]);
    }
  }

  lemma SharesBreakFree(names: seq<string>, set_: Option<Share>)
    requires NoBreaks(names) && (set_.Some? ==> NoBreak(Normalize(set_.value.dataset)))
    ensures NoBreaks(Fence(WithSet(names, set_)))
  {
    var shares := WithSet(names, set_);
    forall k | 0 <= k < |shares| ensures NoBreak(Normalize(shares[k].dataset)) {
      if k < |names| {
        assert shares[k].dataset == names[k];
        NormalNoBreak(names[k]);
      }
    }
    FenceBreaks(shares);
  }

  /**
   * What a section says, setting by setting: where the dataset is, its two flags, that guests may come and see
   * it, and that whatever they do is done as the one anonymous user and group.
   */
  predicate SaysShare(s: Section, dataset: string, readOnly: bool, enabled: bool) {
    && s.name == ShareName(dataset)
    && s.options == [
         ("path", TrimEnd("/" + Normalize(dataset), IsSpace)), ("read only", if readOnly then "yes" else "no"),
         ("guest ok", "yes"), ("public", "yes"), ("browseable", "yes"), ("enabled", if enabled then "yes" else "no"),
         ("force user", "nfsanon"), ("force group", "nfsanon")]
  }

  /** The sections of the region: each kept dataset, writable and enabled, and then the one set with its own flags. */
  ghost predicate WritesShares(lines: seq<string>, names: seq<string>, set_: Option<Share>) {
    var sections := SectionsBetween(lines, BEGIN, END);
    && |sections| == |names| + (if set_.Some? then 1 else 0)
    && (forall k :: 0 <= k < |names| ==> SaysShare(sections[k], names[k], false, true))
    && (set_.Some? ==> SaysShare(sections[|names|], set_.value.dataset, set_.value.readOnly, set_.value.enabled))
  }

  lemma SectionSays(s: Share)
    ensures SaysShare(SectionOf(s), s.dataset, s.readOnly, s.enabled)
  {
    YesNoParses(s.readOnly);
    YesNoParses(s.enabled);
    AnonParses();
  }

  lemma AnonParses()
    ensures TrimEnd("nfsanon", IsSpace) == "nfsanon"
  {
    assert "nfsanon"[6] == 'n';
  }

  /** What is managed in a file with one region. */
  lemma ManagedOf(lines: seq<string>, pre: seq<string>, shares: seq<Share>, post: seq<string>)
    requires NoMarkers(pre) && NoMarkers(post) && NoBreaks(Fence(shares)) && lines == pre + (Fence(shares) + post)
    ensures Managed(lines) == Metas(SectionsOf(shares)) && SectionsBetween(lines, BEGIN, END) == SectionsOf(shares)
  {
    OpenFence(shares);
    RegionMarkers(shares);
    MarkerLines();
    var m, n := |pre|, |pre| + 1 + |Region(shares)|;
    FenceAt(lines, pre, Region(shares), post, BEGIN, END, m, n);
    FencedLines(lines, pre, Region(shares), post, BEGIN, END, m, n);
    BetweenAt(lines, BEGIN, END, m, n, shares);
  }

  /**
   * What a rewrite promises of a file with at most one well-formed region: the datasets managed afterwards
   * are the kept ones and the one set exactly when their names print soundly, and the lines around the
   * region are kept but for blank ones.
   */
  ghost predicate OneChanged(lines: seq<string>, kept: seq<string>, set_: Option<Share>, after: seq<string>) {
    WellFenced(lines) ==>
      && (Names(Managed(after)) == kept + SetName(set_) <==> PrintsSoundly(kept, set_))
      && ((set_.Some? ==> NoBreak(Normalize(set_.value.dataset))) ==>
            var start, end := LastAt(lines, BEGIN), LastAt(lines, END);
            && Around(after, if start.Some? then lines[..start.value] else [], WithSet(kept, set_),
                      if end.Some? then lines[end.value + 1..] else lines)
            && WritesShares(after, kept, set_))
  }

  function KeptOf(lines: seq<string>, set_: Option<Share>, removed: Option<string>): seq<string> {
    Kept(Names(Managed(lines)), Replaced(set_), removed)
  }

  lemma KeptOfNoBreak(lines: seq<string>, set_: Option<Share>, removed: Option<string>)
    ensures NoBreaks(KeptOf(lines, set_, removed))
  {
    ManagedNoBreaks(lines);
    KeptNoBreak(Names(Managed(lines)), Replaced(set_), removed);
  }

  lemma PromiseOf(lines: seq<string>, head: seq<string>, kept: seq<string>, set_: Option<Share>, tail: seq<string>)
    requires head == HeadOf(lines) && tail == TailOf(lines) && NoBreaks(head) && NoBreaks(tail) && NoBreaks(kept)
    ensures OneChanged(lines, kept, set_, Split(NewText(head, WithSet(kept, set_), tail)))
  {
    if WellFenced(lines) {
      OutsideUnmarked(lines);
      RewriteChangesOne(head, kept, set_, tail);
    }
  }

  lemma RewritePromise(lines: seq<string>, set_: Option<Share>, removed: Option<string>)
    requires NoBreaks(lines)
    ensures OneChanged(lines, KeptOf(lines, set_, removed), set_,
                       Split(NewText(HeadOf(lines), WithSet(KeptOf(lines, set_, removed), set_), TailOf(lines))))
  {
    OutsideNoBreaks(lines);
    KeptOfNoBreak(lines, set_, removed);
    PromiseOf(lines, HeadOf(lines), KeptOf(lines, set_, removed), set_, TailOf(lines));
  }

  lemma OutsideNoBreaks(lines: seq<string>)
    requires NoBreaks(lines)
    ensures NoBreaks(HeadOf(lines)) && NoBreaks(TailOf(lines))
  {
  }

  // ── The text, letter by letter ──────────────────────────────────────────

  /** `_render_share_block`. */
  function Block(s: Share): string {
    "[" + ShareName(s.dataset) + "]" + "\n"
    + (PathLine(Normalize(s.dataset))
    + (ReadOnlyLine(s.readOnly)
    + ("\tguest ok = yes\n"
    + ("\tpublic = yes\n"
    + ("\tbrowseable = yes\n"
    + (EnabledLine(s.enabled)
    + ("\tforce user = nfsanon\n"
    + "\tforce group = nfsanon\n")))))))
  }

  function PathLine(name: string): string {
    "\tpath = /" + name + "\n"
  }

  function ReadOnlyLine(b: bool): string {
    if b then "\tread only = yes\n" else "\tread only = no\n"
  }

  function EnabledLine(b: bool): string {
    if b then "\tenabled = yes\n" else "\tenabled = no\n"
  }

  function Blocks(shares: seq<Share>): string {
    if shares == [] then "" else Blocks(shares[..|shares| - 1]) + Block(shares[|shares| - 1])
  }

  lemma {:induction false} UnlinesJoin(a: seq<string>, b: seq<string>)
    ensures Unlines(a + b) == Unlines(a) + Unlines(b)
  {
    if a == [] {
      assert a + b == b;
    } else {
      UnlinesJoin(a[1..], b);
      assert (a + b)[1..] == a[1..] + b;
    }
  }

  lemma UnlinesCons(line: string, rest: seq<string>)
    ensures Unlines([line] + rest) == line + "\n" + Unlines(rest)
  {
    assert ([line] + rest)[1..] == rest;
  }

  lemma EightLines(l: seq<string>)
    requires |l| == 8
    ensures Unlines(l) == l[0] + "\n" + (l[1] + "\n" + (l[2] + "\n" + (l[3] + "\n" + (l[4] + "\n" + (l[5] + "\n"
                          + (l[6] + "\n" + (l[7] + "\n")))))))
  {
    FourLines(l[..4]);
    FourLines(l[4..]);
    UnlinesJoin(l[..4], l[4..]);
    assert l == l[..4] + l[4..];
  }

  lemma FourLines(l: seq<string>)
    requires |l| == 4
    ensures Unlines(l) == l[0] + "\n" + (l[1] + "\n" + (l[2] + "\n" + (l[3] + "\n")))
  {
    assert l == [l[0]] + l[1..] && l[1..] == [l[1]] + l[2..] && l[2..] == [l[2]] + l[3..] && l[3..] == [l[3]] + [];
    UnlinesCons(l[0], l[1..]);
    UnlinesCons(l[1], l[2..]);
    UnlinesCons(l[2], l[3..]);
    UnlinesCons(l[3], []);
  }

  lemma FixedLines()
    ensures SettingLine(("guest ok", "yes")) + "\n" == "\tguest ok = yes\n"
    ensures SettingLine(("public", "yes")) + "\n" == "\tpublic = yes\n"
    ensures SettingLine(("browseable", "yes")) + "\n" == "\tbrowseable = yes\n"
  {
  }

  lemma ForcedLines()
    ensures SettingLine(("force user", "nfsanon")) + "\n" == "\tforce user = nfsanon\n"
    ensures SettingLine(("force group", "nfsanon")) + "\n" == "\tforce group = nfsanon\n"
  {
  }

  lemma FlagLines(b: bool)
    ensures SettingLine(("read only", YesNo(b))) + "\n" == ReadOnlyLine(b)
    ensures SettingLine(("enabled", YesNo(b))) + "\n" == EnabledLine(b)
  {
  }

  lemma PathIs(name: string)
    ensures SettingLine(("path", "/" + name)) + "\n" == PathLine(name)
  {
    assert "\t" + "path" + " = " + "/" == "\tpath = /";
  }

  lemma BlockIs(s: Share)
    ensures Unlines(BlockLines(s)) == Block(s)
  {
    var l := SettingLines(Options(s));
    PathIs(Normalize(s.dataset));
    FlagLines(s.readOnly);
    FlagLines(s.enabled);
    FixedLines();
    ForcedLines();
    EightLines(l);
    UnlinesCons("[" + ShareName(s.dataset) + "]", l);
    BlockFrom(s, l);
  }

  lemma BlockFrom(s: Share, l: seq<string>)
    requires |l| == 8
    requires l[0] + "\n" == PathLine(Normalize(s.dataset)) && l[1] + "\n" == ReadOnlyLine(s.readOnly)
    requires l[2] + "\n" == "\tguest ok = yes\n" && l[3] + "\n" == "\tpublic = yes\n"
    requires l[4] + "\n" == "\tbrowseable = yes\n" && l[5] + "\n" == EnabledLine(s.enabled)
    requires l[6] + "\n" == "\tforce user = nfsanon\n" && l[7] + "\n" == "\tforce group = nfsanon\n"
    ensures Block(s)
            == "[" + ShareName(s.dataset) + "]" + "\n"
               + (l[0] + "\n" + (l[1] + "\n" + (l[2] + "\n" + (l[3] + "\n" + (l[4] + "\n" + (l[5] + "\n"
                  + (l[6] + "\n" + (l[7] + "\n"))))))))
  {
  }

  lemma {:induction false} RegionIs(shares: seq<Share>)
    ensures Unlines(Region(shares)) == Blocks(shares)
  {
    if shares != [] {
      RegionIs(shares[..|shares| - 1]);
      BlockIs(shares[|shares| - 1]);
      UnlinesJoin(Region(shares[..|shares| - 1]), BlockLines(shares[|shares| - 1]));
    }
  }

  /** The region is the one marker, the blocks one after the other, and the other marker. */
  function RegionText(shares: seq<Share>): string {
    "# ===== " + "NAZMan managed " + "shares (do not edit)" + " =====" + "\n"
    + (Blocks(shares) + ("# ===== " + "end NAZMan " + "managed shares" + " =====" + "\n"))
  }

  lemma FencedText(b: string, region: seq<string>, e: string)
    ensures Unlines([b] + region + [e]) == b + "\n" + (Unlines(region) + (e + "\n"))
  {
    assert [b] + region + [e] == [b] + (region + [e]) && [e] + [] == [e];
    UnlinesCons(b, region + [e]);
    UnlinesJoin(region, [e]);
    UnlinesCons(e, []);
    assert e + "\n" + "" == e + "\n";
  }

  lemma FenceIs(shares: seq<Share>)
    ensures Unlines(Fence(shares)) == RegionText(shares)
  {
    hide Unlines, Blocks, Region;
    RegionIs(shares);
    FencedText(BEGIN, Region(shares), END);
  }

  lemma TextIs(lines: seq<string>, shares: seq<Share>)
    ensures var start, end := LastAt(lines, BEGIN), LastAt(lines, END);
            var head := Joined(if start.Some? then lines[..start.value] else []);
            var tail := Joined(if end.Some? then lines[end.value + 1..] else lines);
            NewText(HeadOf(lines), shares, TailOf(lines))
            == (if head != "" then head + "\n" else "") + RegionText(shares) + (if tail != "" then "\n" + tail else "")
  {
    hide RegionText, Unlines, Joined, LastAt;
    FenceIs(shares);
  }

  /**
   * `_rewrite_region`: the new text of the file. With sound names the managed datasets change by exactly
   * the one set or removed, and nothing outside the region but blank lines does.
   */
  method RewriteRegion(text: string, set_: Option<Share>, removed: Option<string>) returns (newText: string)
    ensures var lines := Split(text);
            var kept := KeptOf(lines, set_, removed);
            newText == NewText(HeadOf(lines), WithSet(kept, set_), TailOf(lines))
            && OneChanged(lines, kept, set_, Split(newText))
    ensures var lines := Split(text);
            var start, end := LastAt(lines, BEGIN), LastAt(lines, END);
            var head := Joined(if start.Some? then lines[..start.value] else []);
            var tail := Joined(if end.Some? then lines[end.value + 1..] else lines);
            newText == (if head != "" then head + "\n" else "") + RegionText(WithSet(KeptOf(lines, set_, removed), set_))
                       + (if tail != "" then "\n" + tail else "")
  {
    hide OneChanged, NewText, HeadOf, TailOf, RegionText, Split, KeptOf;
    newText := RewriteText(text, set_, removed);
    TextIs(Split(text), WithSet(KeptOf(Split(text), set_, removed), set_));
    RewritePromise(Split(text), set_, removed);
  }
}
