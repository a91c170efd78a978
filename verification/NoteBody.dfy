/** The sections of a note's body: template headings (`templates.py`) and the summary (`processor.py`). */
module NoteBody {
  import opened Text
  import opened Frontmatter

  // ---- lines ----

  /** A character that ends a line for `str.splitlines`. */
  predicate IsBreak(c: char) {
    || '\n' <= c <= '\r' || '\U{1c}' <= c <= '\U{1e}' || c == '\U{85}' || c == '\U{2028}' || c == '\U{2029}'
  }

  function LineRun(s: string): (n: nat)
    ensures n <= |s|
  {
    if s == "" || IsBreak(s[0]) then 0 else 1 + LineRun(s[1..])
  }

  lemma {:induction false} LineRunShape(s: string)
    ensures forall i | 0 <= i < LineRun(s) :: !IsBreak(s[i])
    ensures LineRun(s) < |s| ==> IsBreak(s[LineRun(s)])
  {
    hide IsBreak;
    if s != "" && !IsBreak(s[0]) { LineRunShape(s[1..]); }
  }

  /** Where the next line starts after a break at `n`: a carriage return takes its line feed along. */
  function AfterBreak(s: string, n: nat): (k: nat)
    requires n < |s|
    ensures n < k <= |s| && k <= n + 2 && (k == n + 2 ==> s[n] == '\r' && s[n + 1] == '\n')
  {
    if s[n] == '\r' && n + 1 < |s| && s[n + 1] == '\n' then n + 2 else n + 1
  }

  /** `s.splitlines()`. */
  function SplitLines(s: string): seq<string> {
    if s == "" then []
    else
      var n := LineRun(s);
      if n == |s| then [s] else [s[..n]] + SplitLines(s[AfterBreak(s, n)..])
  }

  /** No line contains a break. */
  lemma {:induction false} LineUnbroken(s: string, i: nat)
    requires i < |SplitLines(s)|
    ensures LineRun(SplitLines(s)[i]) == |SplitLines(s)[i]|
    decreases |s|
  {
    hide IsBreak;
    LineRunShape(s);
    var n := LineRun(s);
    if n < |s| {
      if i == 0 { LineRunIs(s[..n], n); } else { LineUnbroken(s[AfterBreak(s, n)..], i - 1); }
    }
  }

  predicate IsHeading(line: string) {
    |line| >= 3 && line[0] == '#' && line[1] == '#' && line[2] == ' '
  }

  /** The second-level headings of a text. */
  function Headings(s: string): set<string> {
    HeadingsOf(SplitLines(s))
  }

  function HeadingsOf(lines: seq<string>): set<string> {
    set i | 0 <= i < |lines| && IsHeading(lines[i]) :: Strip(lines[i])
  }

  // ---- template sections ----

  datatype Section = Section(heading: string, body: string)

  /** A section as `template_sections` yields it: it opens with its heading line. */
  predicate SectionOk(s: Section) {
    && IsHeading(s.body) && s.heading == Strip(s.body[..LineRun(s.body)]) && s.heading != "##"
    && TrimRight(s.body) == s.body
  }

  function Missing(body: string, sections: seq<Section>): (r: seq<Section>)
    ensures forall i | 0 <= i < |r| :: r[i] in sections && r[i].heading !in Headings(body)
    ensures forall s | s in sections && s.heading !in Headings(body) :: s in r
  {
    if sections == [] then []
    else (if sections[0].heading in Headings(body) then [] else [sections[0]]) + Missing(body, sections[1..])
  }

  function Bodies(sections: seq<Section>): (r: seq<string>)
    ensures |r| == |sections| && forall i | 0 <= i < |r| :: r[i] == TrimRight(sections[i].body)
  {
    seq(|sections|, i requires 0 <= i < |sections| => TrimRight(sections[i].body))
  }

  /** `append_missing_headings`: the new body. */
  function AppendMissing(body: string, sections: seq<Section>): string {
    var missing := Missing(body, sections);
    if missing == [] then body
    else TrimRight(body) + ("\n\n" + (JoinWith(Bodies(missing), "\n\n") + "\n"))
  }

  // ---- the summary ----

  function SummaryTitle(): string { "## Summary" }

  predicate IsSummary(line: string) {
    Strip(line) == SummaryTitle()
  }

  /** The first summary heading at or after `from`. */
  function SummaryAt(lines: seq<string>, from: nat): (n: nat)
    requires from <= |lines|
    ensures from <= n <= |lines| && (n < |lines| ==> IsSummary(lines[n]))
    ensures forall i | from <= i < n :: !IsSummary(lines[i])
    decreases |lines| - from
  {
    if from == |lines| || IsSummary(lines[from]) then from else SummaryAt(lines, from + 1)
  }

  function HeadingAfter(lines: seq<string>, from: nat): (n: nat)
    requires from <= |lines|
    ensures from <= n <= |lines| && (n < |lines| ==> IsHeading(lines[n]))
    ensures forall i | from <= i < n :: !IsHeading(lines[i])
    decreases |lines| - from
  {
    if from == |lines| || IsHeading(lines[from]) then from else HeadingAfter(lines, from + 1)
  }

  /** `_summary_missing`, on the body. */
  predicate SummaryMissing(body: string) {
    var lines := SplitLines(body);
    var n := SummaryAt(lines, 0);
    n == |lines| || forall i | n < i < HeadingAfter(lines, n + 1) :: Strip(lines[i]) == ""
  }

  /** A summary is missing when the body has no line that is the summary heading, or only blank lines after
      the first one, up to the next heading or the end. */
  lemma SummaryMissingIff(body: string, n: nat, m: nat)
    requires var lines := SplitLines(body);
      && n < m <= |lines| && Strip(lines[n]) == "## Summary" && (forall i | 0 <= i < n :: Strip(lines[i]) != "## Summary")
      && (forall i | n < i < m :: !IsHeading(lines[i])) && (m < |lines| ==> IsHeading(lines[m]))
    ensures SummaryMissing(body) <==> forall i | n < i < m :: AllSpace(SplitLines(body)[i])
  {
    var lines := SplitLines(body);
    forall i | n < i < m ensures Strip(lines[i]) == "" <==> AllSpace(lines[i]) { BlankIff(lines[i]); }
    hide SplitLines, Strip, IsHeading, AllSpace;
  }

  lemma NoSummaryMissing(body: string)
    requires forall i | 0 <= i < |SplitLines(body)| :: Strip(SplitLines(body)[i]) != "## Summary"
    ensures SummaryMissing(body)
  {
    hide SplitLines, Strip;
  }

  lemma BlankIff(s: string)
    ensures Strip(s) == "" <==> AllSpace(s)
  {
    var before, after := StripShape(s);
    if AllSpace(s) { StripPadded(s, "", ""); assert s + "" + "" == s; }
    hide Strip, IsSpace;
  }

  /** `_apply_summary`. */
  function ApplySummary(body: string, summary: string): string {
    var lines := SplitLines(body);
    var n := SummaryAt(lines, 0);
    if n == |lines| then TrimRight(body) + ("\n\n" + (SummaryTitle() + ("\n\n" + (summary + "\n"))))
    else
      TrimRight(JoinWith(lines[..n + 1] + ["", summary, ""] + lines[HeadingAfter(lines, n + 1)..], "\n")) + "\n"
  }

  // ---- headings by position ----

  predicate LineStart(s: string, i: nat) {
    i <= |s| && (i == 0 || IsBreak(s[i - 1]))
  }

  /** The line at `i` is a heading with text `h`. */
  predicate HeadingAt(s: string, i: nat, h: string) {
    i <= |s| && LineStart(s, i) && IsHeading(s[i..]) && Strip(s[i..i + LineRun(s[i..])]) == h
  }

  predicate HasHeading(s: string, h: string) {
    exists i: nat | i <= |s| :: HeadingAt(s, i, h)
  }

  lemma HeadingInLine(s: string)
    ensures IsHeading(s) <==> IsHeading(s[..LineRun(s)])
  {
    assert !IsBreak('#') && !IsBreak(' ');
    hide IsBreak;
    LineRunShape(s);
  }

  /** Reading lines one after the other finds exactly the headings at line starts. */
  lemma {:induction false} HeadingsByPosition(s: string, h: string)
    ensures h in Headings(s) <==> HasHeading(s, h)
    decreases |s|
  {
    hide Strip, IsBreak, Headings, HasHeading;
    if s == "" {
      NoLines(h);
    } else if LineRun(s) == |s| {
      LoneLineHeading(s, h);
    } else {
      HeadingsByPosition(s[AfterBreak(s, LineRun(s))..], h);
      HeadingsOfSplit(s, h);
      PositionsOfSplit(s, h);
    }
  }

  lemma NoLines(h: string)
    ensures h !in Headings("") && !HasHeading("", h)
  {
    hide Strip, IsBreak;
  }

  lemma LoneLineHeading(s: string, h: string)
    requires s != "" && LineRun(s) == |s|
    ensures h in Headings(s) <==> HasHeading(s, h)
  {
    hide Strip, IsBreak;
    LineRunShape(s);
    assert SplitLines(s) == [s];
    hide LineRun, SplitLines;
    assert s[0..] == s && s[0..0 + LineRun(s)] == s;
    assert IsHeading(s) && Strip(s) == h <==> HeadingAt(s, 0, h);
    forall i: nat | 0 < i <= |s| ensures !HeadingAt(s, i, h) {}
  }

  lemma PositionsOfSplit(s: string, h: string)
    requires s != "" && LineRun(s) < |s|
    ensures var n := LineRun(s);
            HasHeading(s, h) <==> (IsHeading(s[..n]) && h == Strip(s[..n])) || HasHeading(s[AfterBreak(s, n)..], h)
  {
    hide Strip, IsBreak;
    var n := LineRun(s);
    var k := AfterBreak(s, n);
    var rest := s[k..];
    LineRunShape(s);
    hide LineRun;
    LastOfBreak(s, n);
    FirstLineHeading(s, h);
    if HasHeading(s, h) && !HeadingAt(s, 0, h) { HeadingMovesIn(s, k, h); }
    hide HeadingAt, AfterBreak;
    if HasHeading(rest, h) {
      var j: nat :| j <= |rest| && HeadingAt(rest, j, h);
      HeadingInSuffix(s, k, j, h);
    }
  }

  lemma HeadingMovesIn(s: string, k: nat, h: string)
    requires s != "" && LineRun(s) < |s| && k == AfterBreak(s, LineRun(s)) && IsBreak(s[k - 1])
    requires HasHeading(s, h) && !HeadingAt(s, 0, h)
    ensures HasHeading(s[k..], h)
  {
    hide HeadingAt, AfterBreak, IsBreak;
    var i: nat :| i <= |s| && HeadingAt(s, i, h);
    NoHeadingInside(s, i, h);
    HeadingInSuffix(s, k, i - k, h);
  }

  lemma FirstLineHeading(s: string, h: string)
    ensures IsHeading(s[..LineRun(s)]) && h == Strip(s[..LineRun(s)]) <==> HeadingAt(s, 0, h)
  {
    hide Strip, IsBreak;
    HeadingInLine(s);
    assert s[0..] == s && s[0..0 + LineRun(s)] == s[..LineRun(s)];
  }

  /** After the start of the first line, headings start at the second line or later. */
  lemma NoHeadingInside(s: string, i: nat, h: string)
    requires s != "" && LineRun(s) < |s| && 0 < i && HeadingAt(s, i, h)
    ensures AfterBreak(s, LineRun(s)) <= i
  {
    hide Strip;
    LineRunShape(s);
    assert !IsBreak('#') && IsBreak('\n');
    hide IsBreak, LineRun;
    assert i < |s| && s[i] == s[i..][0] == '#';
  }

  lemma LastOfBreak(s: string, n: nat)
    requires n < |s| && IsBreak(s[n])
    ensures IsBreak(s[AfterBreak(s, n) - 1])
  {
  }

  lemma HeadingsOfSplit(s: string, h: string)
    requires s != "" && LineRun(s) < |s|
    ensures var n := LineRun(s);
            h in Headings(s) <==> (IsHeading(s[..n]) && h == Strip(s[..n])) || h in Headings(s[AfterBreak(s, n)..])
  {
    var n := LineRun(s);
    HeadingsCons(s[..n], SplitLines(s[AfterBreak(s, n)..]), h);
  }

  lemma HeadingsCons(line: string, rest: seq<string>, h: string)
    ensures h in HeadingsOf([line] + rest) <==> (IsHeading(line) && h == Strip(line)) || h in HeadingsOf(rest)
  {
    hide Strip, IsHeading;
    var lines := [line] + rest;
    if h in HeadingsOf(rest) {
      var i :| 0 <= i < |rest| && IsHeading(rest[i]) && h == Strip(rest[i]);
      assert lines[i + 1] == rest[i];
    }
    if IsHeading(line) && h == Strip(line) { assert lines[0] == line; }
    if h in HeadingsOf(lines) {
      var i :| 0 <= i < |lines| && IsHeading(lines[i]) && h == Strip(lines[i]);
      if i > 0 { assert rest[i - 1] == lines[i]; }
    }
  }

  /** Headings of a suffix that starts a line are the headings of the whole text at shifted places. */
  lemma HeadingInSuffix(s: string, k: nat, j: nat, h: string)
    requires 0 < k <= |s| && IsBreak(s[k - 1]) && j <= |s| - k
    ensures HeadingAt(s[k..], j, h) <==> HeadingAt(s, k + j, h)
    ensures HeadingAt(s[k..], j, h) ==> HasHeading(s, h)
  {
    hide Strip;
    assert s[k..][j..] == s[k + j..];
    var n := LineRun(s[k + j..]);
    assert s[k..][j..j + n] == s[k + j..k + j + n];
  }

  lemma LineRunIs(s: string, n: nat)
    requires n <= |s| && (forall i | 0 <= i < n :: !IsBreak(s[i])) && (n < |s| ==> IsBreak(s[n]))
    ensures LineRun(s) == n
  {
    LineRunShape(s);
    hide IsBreak, LineRun;
  }

  /** Text put after a line break leaves the headings before it alone. */
  lemma HeadingInPrefix(s: string, t: string, h: string)
    requires HasHeading(s, h) && (t == "" || IsBreak(t[0]))
    ensures HasHeading(s + t, h)
  {
    hide Strip;
    var i: nat :| i <= |s| && HeadingAt(s, i, h);
    var n := LineRun(s[i..]);
    LineRunShape(s[i..]);
    assert (s + t)[i..] == s[i..] + t;
    LineRunIs(s[i..] + t, n);
    assert (s + t)[i..i + n] == s[i..i + n];
    assert HeadingAt(s + t, i, h);
  }

  lemma HeadingInTail(s: string, t: string, h: string)
    requires s != "" && IsBreak(s[|s| - 1]) && HasHeading(t, h)
    ensures HasHeading(s + t, h)
  {
    hide Strip;
    assert (s + t)[|s|..] == t;
    var j: nat :| j <= |t| && HeadingAt(t, j, h);
    HeadingInSuffix(s + t, |s|, j, h);
  }

  lemma StripDropsSpace(s: string, c: char)
    requires IsSpace(c)
    ensures Strip(s + [c]) == Strip(s)
  {
    hide IsSpace;
    var before, after := StripShape(s);
    var core := Strip(s);
    hide Strip;
    StripPadded(before, core, after + [c]);
    assert s + [c] == before + core + (after + [c]);
  }

  /** Dropping one trailing space keeps every heading that has a title. */
  lemma HeadingSurvivesLastSpace(s: string, c: char, h: string)
    requires IsSpace(c) && HasHeading(s + [c], h) && h != "##"
    ensures HasHeading(s, h)
  {
    hide IsSpace, IsBreak, Strip;
    var t := s + [c];
    var i: nat :| i <= |t| && HeadingAt(t, i, h);
    assert i <= |s|;
    var u := s[i..];
    assert t[i..] == u + [c] && t[i..i + LineRun(u + [c])] == (u + [c])[..LineRun(u + [c])];
    assert s[i..i + LineRun(u)] == u[..LineRun(u)];
    hide IsHeading;
    TitledHeading(u, c);
    LineWithoutSpace(u, c);
    assert HeadingAt(s, i, h);
  }

  lemma TitledHeading(u: string, c: char)
    requires IsHeading(u + [c]) && Strip((u + [c])[..LineRun(u + [c])]) != "##"
    ensures |u| > 2
  {
    HashesStrip();
    hide IsSpace, IsBreak, Strip;
    LineRunIs("## ", 3);
    assert "## "[..3] == "## ";
    assert |u| <= 2 ==> u + [c] == "## ";
  }

  /** The first line of a text and of the text with one more space strip to the same. */
  lemma LineWithoutSpace(u: string, c: char)
    requires IsSpace(c) && |u| > 2 && IsHeading(u + [c])
    ensures IsHeading(u) && Strip(u[..LineRun(u)]) == Strip((u + [c])[..LineRun(u + [c])])
  {
    hide IsSpace, IsBreak, Strip;
    assert u[..3] == (u + [c])[..3];
    var n := LineRun(u + [c]);
    LineRunShape(u + [c]);
    hide LineRun;
    if n <= |u| {
      assert forall j | 0 <= j < n :: u[j] == (u + [c])[j];
      LineRunIs(u, n);
      assert u[..n] == (u + [c])[..n];
    } else {
      assert forall j | 0 <= j < |u| :: u[j] == (u + [c])[j];
      LineRunIs(u, |u|);
      assert u[..|u|] == u && (u + [c])[..n] == u + [c];
      StripDropsSpace(u, c);
    }
  }

  lemma HashesStrip()
    ensures Strip("## ") == "##" && !IsBreak('#') && !IsBreak(' ')
  {
    assert IsSpace(' ') && !IsSpace('#');
    hide IsSpace;
    StripPadded("", "##", " ");
    assert "" + "##" + " " == "## ";
  }

  lemma {:induction false} HeadingSurvivesTrim(s: string, h: string)
    requires HasHeading(s, h) && h != "##"
    ensures HasHeading(TrimRight(s), h)
  {
    hide IsSpace, HasHeading;
    if s != "" && IsSpace(s[|s| - 1]) {
      assert s == s[..|s| - 1] + [s[|s| - 1]];
      HeadingSurvivesLastSpace(s[..|s| - 1], s[|s| - 1], h);
      HeadingSurvivesTrim(s[..|s| - 1], h);
    }
  }

  predicate Breaks(sep: string) {
    sep != "" && IsBreak(sep[0]) && IsBreak(sep[|sep| - 1])
  }

  /** A heading of any part is a heading of the parts joined by line breaks. */
  lemma {:induction false} HeadingOfPart(parts: seq<string>, sep: string, i: nat, h: string)
    requires i < |parts| && Breaks(sep) && HasHeading(parts[i], h)
    ensures HasHeading(JoinWith(parts, sep), h)
  {
    hide HasHeading, IsBreak;
    if |parts| > 1 {
      var rest := JoinWith(parts[1..], sep);
      if i == 0 {
        HeadingInPrefix(parts[0], sep + rest, h);
      } else {
        HeadingOfPart(parts[1..], sep, i - 1, h);
        assert parts[0] + (sep + rest) == (parts[0] + sep) + rest;
        HeadingInTail(parts[0] + sep, rest, h);
      }
    }
  }

  lemma LineHasHeading(line: string)
    requires IsHeading(line) && LineRun(line) == |line|
    ensures HasHeading(line, Strip(line))
  {
    hide Strip;
    assert line[0..] == line && line[0..0 + |line|] == line;
    assert HeadingAt(line, 0, Strip(line));
  }

  lemma NewlineBreaks()
    ensures IsBreak('\n') && IsSpace('\n') && Breaks("\n") && Breaks("\n\n")
  {
  }

  // ---- what the two edits keep and bring ----

  /** After the missing sections are appended none is missing, every heading with a title that was
      there still is, and the text in front of the added sections is the old body. */
  lemma TemplateFills(body: string, sections: seq<Section>)
    requires forall i | 0 <= i < |sections| :: SectionOk(sections[i])
    ensures Missing(AppendMissing(body, sections), sections) == []
    ensures forall h | h in Headings(body) && h != "##" :: h in Headings(AppendMissing(body, sections))
    ensures TrimRight(body) <= AppendMissing(body, sections)
  {
    OldBodyStays(body, sections);
    AllFilled(body, sections);
    hide Headings, SectionOk, TrimRight, AppendMissing, Missing;
    forall h | h in Headings(body) && h != "##" ensures h in Headings(AppendMissing(body, sections)) {
      AppendKeeps(body, sections, h);
    }
  }

  lemma AllFilled(body: string, sections: seq<Section>)
    requires forall i | 0 <= i < |sections| :: SectionOk(sections[i])
    ensures Missing(AppendMissing(body, sections), sections) == []
  {
    hide Headings, SectionOk, AppendMissing;
    var after := AppendMissing(body, sections);
    forall i: nat | i < |sections| ensures sections[i].heading in Headings(after) {
      if sections[i].heading in Headings(body) {
        SectionTitled(sections[i]);
        AppendKeeps(body, sections, sections[i].heading);
      } else {
        AppendBrings(body, sections, sections[i]);
      }
    }
  }

  lemma OldBodyStays(body: string, sections: seq<Section>)
    ensures TrimRight(body) <= AppendMissing(body, sections)
  {
    hide Missing, JoinWith;
    var _ := TrimRightShape(body);
  }

  lemma SectionTitled(s: Section)
    requires SectionOk(s)
    ensures s.heading != "##"
  {
    hide Strip, TrimRight;
  }

  lemma AppendKeeps(body: string, sections: seq<Section>, h: string)
    requires h in Headings(body) && h != "##"
    ensures h in Headings(AppendMissing(body, sections))
  {
    hide Headings, TrimRight, HasHeading, IsBreak;
    NewlineBreaks();
    HeadingsByPosition(body, h);
    HeadingSurvivesTrim(body, h);
    var missing := Missing(body, sections);
    if missing != [] {
      HeadingInPrefix(TrimRight(body), "\n\n" + (JoinWith(Bodies(missing), "\n\n") + "\n"), h);
    }
    HeadingsByPosition(AppendMissing(body, sections), h);
  }

  lemma AppendBrings(body: string, sections: seq<Section>, s: Section)
    requires s in sections && s.heading !in Headings(body) && SectionOk(s)
    ensures s.heading in Headings(AppendMissing(body, sections))
  {
    var missing := Missing(body, sections);
    var i :| 0 <= i < |missing| && missing[i] == s;
    var joined := JoinWith(Bodies(missing), "\n\n");
    assert AppendMissing(body, sections) == TrimRight(body) + ("\n\n" + (joined + "\n"));
    SectionHasHeading(s);
    NewlineBreaks();
    hide Headings, HasHeading, IsBreak, JoinWith, AppendMissing, Missing, SectionOk;
    HeadingOfPart(Bodies(missing), "\n\n", i, s.heading);
    hide TrimRight;
    HeadingGlued(TrimRight(body), joined, s.heading);
    HeadingsByPosition(AppendMissing(body, sections), s.heading);
  }

  lemma HeadingGlued(a: string, b: string, h: string)
    requires HasHeading(b, h)
    ensures HasHeading(a + ("\n\n" + (b + "\n")), h)
  {
    NewlineBreaks();
    hide HasHeading, IsBreak;
    HeadingInPrefix(b, "\n", h);
    HeadingInTail(a + "\n\n", b + "\n", h);
    assert (a + "\n\n") + (b + "\n") == a + ("\n\n" + (b + "\n"));
  }

  lemma SectionHasHeading(s: Section)
    requires SectionOk(s)
    ensures HasHeading(TrimRight(s.body), s.heading)
  {
    hide TrimRight, Strip;
    assert s.body[0..] == s.body && s.body[0..0 + LineRun(s.body)] == s.body[..LineRun(s.body)];
    assert HeadingAt(s.body, 0, s.heading);
  }

  /** Writing the summary loses no heading that has a title. */
  lemma SummaryKeepsHeadings(body: string, summary: string, h: string)
    requires h in Headings(body) && h != "##"
    ensures h in Headings(ApplySummary(body, summary))
  {
    hide Headings, HasHeading, ApplySummary, SummaryAt, SplitLines;
    HeadingsByPosition(body, h);
    HeadingsByPosition(ApplySummary(body, summary), h);
    if SummaryAt(SplitLines(body), 0) == |SplitLines(body)| {
      SummaryAppendKeeps(body, summary, h);
    } else {
      SummaryReplaceKeeps(body, summary, h);
    }
  }

  lemma SummaryAppendKeeps(body: string, summary: string, h: string)
    requires HasHeading(body, h) && h != "##" && SummaryAt(SplitLines(body), 0) == |SplitLines(body)|
    ensures HasHeading(ApplySummary(body, summary), h)
  {
    hide HasHeading, SplitLines, SummaryAt, TrimRight, IsSummary;
    NewlineBreaks();
    hide IsBreak;
    HeadingSurvivesTrim(body, h);
    HeadingInPrefix(TrimRight(body), "\n\n" + (SummaryTitle() + ("\n\n" + (summary + "\n"))), h);
  }

  lemma SummaryReplaceKeeps(body: string, summary: string, h: string)
    requires h in Headings(body) && h != "##" && SummaryAt(SplitLines(body), 0) < |SplitLines(body)|
    ensures HasHeading(ApplySummary(body, summary), h)
  {
    var lines := SplitLines(body);
    var n := SummaryAt(lines, 0);
    hide HasHeading, SplitLines, SummaryAt, TrimRight, IsSummary, IsHeading, JoinWith;
    NewlineBreaks();
    hide IsBreak;
    forall j: nat | j < |lines| ensures LineRun(lines[j]) == |lines[j]| { LineUnbroken(body, j); }
    var parts := lines[..n + 1] + ["", summary, ""] + lines[HeadingAfter(lines, n + 1)..];
    var i := HeadingLineKept(lines, n, summary, h);
    HeadingOfPart(parts, "\n", i, h);
    HeadingSurvivesTrim(JoinWith(parts, "\n"), h);
    HeadingInPrefix(TrimRight(JoinWith(parts, "\n")), "\n", h);
  }

  /** Every heading line is among the lines that the summary replacement keeps. */
  lemma HeadingLineKept(lines: seq<string>, n: nat, summary: string, h: string) returns (i: nat)
    requires n < |lines|
    requires exists j | 0 <= j < |lines| :: IsHeading(lines[j]) && Strip(lines[j]) == h
    requires forall j | 0 <= j < |lines| :: LineRun(lines[j]) == |lines[j]|
    ensures var parts := lines[..n + 1] + ["", summary, ""] + lines[HeadingAfter(lines, n + 1)..];
            i < |parts| && HasHeading(parts[i], h)
  {
    hide Strip, HasHeading, HeadingAfter;
    var j: nat :| j < |lines| && IsHeading(lines[j]) && Strip(lines[j]) == h;
    LineHasHeading(lines[j]);
    i := KeptAt(lines, n, HeadingAfter(lines, n + 1), summary, j);
  }

  lemma KeptAt(lines: seq<string>, n: nat, next: nat, summary: string, j: nat) returns (i: nat)
    requires n < next <= |lines| && (j <= n || next <= j < |lines|)
    ensures var parts := lines[..n + 1] + ["", summary, ""] + lines[next..]; i < |parts| && parts[i] == lines[j]
  {
    i := if j <= n then j else n + 4 + (j - next);
  }

  /** Leading newlines hold no heading. */
  lemma {:induction false} DropKeepsHeadings(s: string)
    ensures Headings(DropNewlines(s)) == Headings(s)
  {
    hide HeadingsOf;
    if s != "" && s[0] == '\n' {
      DropKeepsHeadings(s[1..]);
      assert LineRun(s) == 0 && s[..0] == "" && SplitLines(s) == [""] + SplitLines(s[1..]);
      forall h ensures h in Headings(s) <==> h in Headings(s[1..]) { HeadingsCons("", SplitLines(s[1..]), h); }
    }
  }

  /** A body in which no section is missing goes on missing none as long as its titled headings stay. */
  lemma StillNoneMissing(body: string, after: string, sections: seq<Section>)
    requires Missing(body, sections) == [] && forall i | 0 <= i < |sections| :: sections[i].heading != "##"
    requires forall h | h in Headings(body) && h != "##" :: h in Headings(after)
    ensures Missing(after, sections) == []
  {
    hide Headings;
    forall i: nat | i < |sections| ensures sections[i].heading in Headings(after) {
      assert sections[i] in sections;
    }
  }
}
