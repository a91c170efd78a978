/** The schema note as one text: the printed lines joined, and what parsing that text gives. */
module SchemaNoteText {
  import opened Text
  import opened NoteBody
  import opened MarkdownTable
  import opened SchemaSync
  import opened SchemaTerms
  import opened SchemaNote

  function DropTrailing(s: string): string {
    if s != "" && s[|s| - 1] == '\n' then DropTrailing(s[..|s| - 1]) else s
  }

  /** `"\n".join(lines).rstrip("\n") + "\n"` */
  function NoteText(lines: seq<string>): string {
    DropTrailing(JoinWith(lines, "\n")) + "\n"
  }

  function DropBlanks(lines: seq<string>): seq<string> {
    if lines != [] && lines[|lines| - 1] == "" then DropBlanks(lines[..|lines| - 1]) else lines
  }

  lemma {:induction false} JoinTerminated(lines: seq<string>)
    requires lines != []
    ensures JoinWith(lines, "\n") + "\n" == Terminated(lines)
  {
    if |lines| > 1 {
      JoinTerminated(lines[1..]);
      assert lines[0] + ("\n" + JoinWith(lines[1..], "\n")) + "\n" == lines[0] + ("\n" + (JoinWith(lines[1..], "\n") + "\n"));
    } else {
      assert Terminated(lines[1..]) == "";
    }
  }

  lemma {:induction false} JoinSnoc(lines: seq<string>, last: string)
    requires lines != []
    ensures JoinWith(lines + [last], "\n") == JoinWith(lines, "\n") + ("\n" + last)
  {
    var all := lines + [last];
    if |lines| == 1 {
      assert all[1..] == [last];
    } else {
      assert all[1..] == lines[1..] + [last];
      JoinSnoc(lines[1..], last);
      assert lines[0] + ("\n" + (JoinWith(lines[1..], "\n") + ("\n" + last)))
          == lines[0] + ("\n" + JoinWith(lines[1..], "\n")) + ("\n" + last);
    }
  }

  lemma {:induction false} NoteTextIs(lines: seq<string>)
    requires LinesOk(lines) && DropBlanks(lines) != []
    ensures NoteText(lines) == Terminated(DropBlanks(lines))
    decreases |lines|
  {
    hide LineRun;
    var m, last := lines[..|lines| - 1], lines[|lines| - 1];
    assert lines == m + [last];
    if last == "" {
      assert m != [];
      NoteTextIs(m);
      JoinSnoc(m, "");
      var t := JoinWith(m, "\n");
      assert t + ("\n" + "") == t + "\n" && (t + "\n")[..|t + "\n"| - 1] == t;
      assert DropTrailing(t + "\n") == DropTrailing(t);
    } else {
      EndsUnbroken(lines);
      JoinTerminated(lines);
    }
  }

  lemma {:induction false} DropBlanksPrefix(lines: seq<string>)
    ensures DropBlanks(lines) <= lines
    decreases |lines|
  {
    if lines != [] { DropBlanksPrefix(lines[..|lines| - 1]); }
  }

  /** The printed text has exactly the printed lines, but for blank ones at the end. */
  lemma TextLines(lines: seq<string>)
    requires LinesOk(lines) && DropBlanks(lines) != []
    ensures SplitLines(NoteText(lines)) == DropBlanks(lines)
  {
    DropBlanksPrefix(lines);
    hide SplitLines, LineRun, DropBlanks;
    NoteTextIs(lines);
    LinesOfTerminated(DropBlanks(lines), "");
    NothingLeft();
    assert Terminated(DropBlanks(lines)) + "" == Terminated(DropBlanks(lines)) && DropBlanks(lines) + [] == DropBlanks(lines);
  }

  lemma NothingLeft()
    ensures SplitLines("") == []
  {
  }

  lemma NoNewlineAtEnd(s: string)
    requires s != "" && LineRun(s) == |s|
    ensures s[|s| - 1] != '\n'
  {
    LineRunShape(s);
  }

  lemma KeptWhole(s: string)
    requires s != "" && s[|s| - 1] != '\n'
    ensures DropTrailing(s) == s
  {
  }

  lemma JoinEnds(m: seq<string>, last: string)
    requires last != ""
    ensures var s := JoinWith(m + [last], "\n"); s != "" && s[|s| - 1] == last[|last| - 1]
  {
    if m == [] {
      assert m + [last] == [last];
    } else {
      JoinSnoc(m, last);
      hide JoinWith;
    }
  }

  lemma EndsUnbroken(lines: seq<string>)
    requires lines != [] && LinesOk(lines) && lines[|lines| - 1] != ""
    ensures DropTrailing(JoinWith(lines, "\n")) == JoinWith(lines, "\n")
  {
    var m, last := lines[..|lines| - 1], lines[|lines| - 1];
    assert LineRun(last) == |last|;
    hide *;
    NoNewlineAtEnd(last);
    assert lines == m + [last];
    JoinEnds(m, last);
    KeptWhole(JoinWith(lines, "\n"));
  }

  lemma {:induction false} BlanksDropped(r: Reader, lines: seq<string>)
    ensures TakeLines(r, DropBlanks(lines)) == TakeLines(r, lines)
    decreases |lines|
  {
    hide TakeLine;
    if lines != [] && lines[|lines| - 1] == "" {
      var m := lines[..|lines| - 1];
      BlanksDropped(r, m);
      assert lines == m + [""];
      TakeSnoc(r, m, "");
      TakeBlank(TakeLines(r, m));
    }
  }

  // ---- every printed line is one line ----

  predicate OneLine(s: string) {
    LineRun(s) == |s|
  }

  lemma OneLineConcat(a: string, b: string)
    requires OneLine(a) && OneLine(b)
    ensures OneLine(a + b)
  {
    hide IsBreak;
    LineRunShape(a);
    LineRunShape(b);
    hide LineRun;
    LineRunIs(a + b, |a + b|);
  }

  lemma OneLineStrip(s: string)
    requires OneLine(s)
    ensures OneLine(Strip(s))
  {
    LineRunShape(s);
    StripWithin(s);
    hide IsBreak, Strip, LineRun;
    LineRunIs(Strip(s), |Strip(s)|);
  }

  lemma LinesOkConcat(a: seq<string>, b: seq<string>)
    requires LinesOk(a) && LinesOk(b)
    ensures LinesOk(a + b)
  {
    hide LineRun;
  }

  lemma DashOneLine()
    ensures OneLine(EmDash())
  {
    DashShape();
    LineRunIs(EmDash(), 3);
  }

  lemma NoHubsOneLine()
    ensures OneLine(NoHubsLine())
  {
    UnbrokenAscii(NoHubsLine());
  }

  lemma FixedOneLine()
    ensures OneLine("- ") && OneLine(EmDash()) && OneLine(" (list)") && OneLine("") && OneLine("### ") && OneLine(NoHubsLine())
  {
    hide *;
    DashOneLine();
    NoHubsOneLine();
    AsciiOneLine("- ");
    AsciiOneLine(" (list)");
    AsciiOneLine("");
    AsciiOneLine("### ");
  }

  lemma ValueLineOk(v: string, d: string)
    requires OneLine(v) && OneLine(d)
    ensures OneLine(ValueLine(v, d))
  {
    FixedOneLine();
    hide OneLine, EmDash, IsSpace;
    OneLineStrip(d);
    if Strip(d) != "" {
      OneLineConcat(EmDash(), Strip(d));
      OneLineConcat(v, EmDash() + Strip(d));
      OneLineConcat("- ", v + (EmDash() + Strip(d)));
    } else {
      OneLineConcat("- ", v);
    }
  }

  lemma ListingLines(l: Listing)
    requires PlainListing(l)
    ensures LinesOk(ValueLines(l))
  {
    forall i | 0 <= i < |l| ensures OneLine(ValueLines(l)[i]) {
      PlainTrimmed(l[i].0);
      hide PlainValue, ValueLine;
      ValueLineOk(l[i].0, l[i].1);
    }
    hide LineRun, ValueLine, PlainListing;
  }

  lemma PropertyLabelOk(d: Declared)
    requires PlainName(d.name)
    ensures OneLine(PropertyLabel(d))
  {
    PlainTrimmed(d.name);
    FixedOneLine();
    hide OneLine, PlainValue, PlainName;
    if d.isList { OneLineConcat(d.name, " (list)"); }
  }

  lemma DeclaredLines(ds: seq<Declared>)
    requires forall i | 0 <= i < |ds| :: PlainName(ds[i].name) && OneLine(ds[i].definition)
    ensures LinesOk(PropertyLines(ds))
  {
    forall i | 0 <= i < |ds| ensures OneLine(PropertyLines(ds)[i]) {
      PropertyLabelOk(ds[i]);
      hide PlainName, ValueLine, OneLine, PropertyLabel;
      ValueLineOk(PropertyLabel(ds[i]), ds[i].definition);
    }
    hide LineRun, ValueLine, PlainName, PropertyLabel;
  }

  lemma {:induction false} HubLinesOk(hubs: seq<(string, Listing)>)
    requires forall i | 0 <= i < |hubs| :: HubOk(hubs[i]) && PlainListing(hubs[i].1)
    ensures LinesOk(HubLines(hubs))
  {
    if hubs != [] {
      assert HubOk(hubs[0]) && PlainListing(hubs[0].1);
      HubLinesOk(hubs[1..]);
      HubHeadOk(hubs[0]);
      ListingLines(hubs[0].1);
      hide LinesOk, ValueLines, HubOk, PlainListing;
      LinesOkConcat([""], HubLines(hubs[1..]));
      LinesOkConcat(ValueLines(hubs[0].1), [""] + HubLines(hubs[1..]));
      LinesOkConcat(["### " + hubs[0].0, ""], ValueLines(hubs[0].1) + ([""] + HubLines(hubs[1..])));
    }
  }

  lemma WithBlankOk(line: string)
    requires OneLine(line)
    ensures LinesOk([line, ""]) && LinesOk([""])
  {
    FixedOneLine();
    hide LineRun;
  }

  lemma HubOneLine(h: (string, Listing))
    requires HubOk(h)
    ensures OneLine(h.0)
  {
  }

  lemma HubHeadOk(h: (string, Listing))
    requires HubOk(h)
    ensures LinesOk(["### " + h.0, ""]) && LinesOk([""])
  {
    hide *;
    FixedOneLine();
    HubOneLine(h);
    OneLineConcat("### ", h.0);
    WithBlankOk("### " + h.0);
  }

  lemma AsciiOneLine(s: string)
    requires forall i | 0 <= i < |s| :: ' ' <= s[i] <= '~'
    ensures OneLine(s)
  {
    UnbrokenAscii(s);
  }

  lemma KindHeadOk(k: Kind)
    ensures LinesOk([KindHeading(k), ""]) && LinesOk([""])
  {
    hide *;
    KindHeadPlain(k);
    AsciiOneLine(KindHeading(k));
    WithBlankOk(KindHeading(k));
  }

  lemma KindHeadPlain(k: Kind)
    ensures forall i | 0 <= i < |KindHeading(k)| :: ' ' <= KindHeading(k)[i] <= '~'
  {
    match k case NoteTypes => case Of(f) => match f case Status => case Domain => case SourceKind => case CaptureType =>
  }

  lemma KindLinesOk(c: Contents, k: Kind)
    requires PlainListing(c.values(k))
    ensures LinesOk(KindLines(c, k))
  {
    hide *;
    KindHeadOk(k);
    ListingLines(c.values(k));
    LinesOkConcat(ValueLines(c.values(k)), [""]);
    LinesOkConcat([KindHeading(k), ""], ValueLines(c.values(k)) + [""]);
    KindLinesAre(c, k);
  }

  lemma KindLinesAre(c: Contents, k: Kind)
    ensures KindLines(c, k) == [KindHeading(k), ""] + (ValueLines(c.values(k)) + [""])
  {
  }

  lemma SectionHeadsOk()
    ensures LinesOk(["## Properties", ""]) && LinesOk(["## Topic hubs", ""]) && LinesOk([""]) && LinesOk([NoHubsLine(), ""])
  {
    hide *;
    FixedOneLine();
    AsciiOneLine("## Properties");
    AsciiOneLine("## Topic hubs");
    WithBlankOk("## Properties");
    WithBlankOk("## Topic hubs");
    WithBlankOk(NoHubsLine());
  }

  lemma ProseLines(p: Prose)
    requires ProseOk(p)
    ensures LinesOk(p.preamble) && LinesOk(p.propertiesIntro) && LinesOk(p.hubsIntro) && LinesOk(p.rest)
  {
    hide ParseHeading, ParseBullet, LineRun, SectionOf, LowerAscii;
  }

  lemma HubSectionOk(c: Contents, p: Prose)
    requires ContentsOk(c) && ProseOk(p)
    ensures LinesOk(HubSection(c, p))
  {
    hide *;
    HubSectionIs(c, p);
    HubsFine(c);
    HubLinesOk(c.hubs);
    SectionHeadsOk();
    ProseLines(p);
    var body := if c.hubs == [] then [NoHubsLine(), ""] else HubLines(c.hubs);
    LinesOkConcat(p.hubsIntro, body);
    LinesOkConcat(["## Topic hubs", ""], p.hubsIntro + body);
  }

  lemma DefinitionsFine(c: Contents)
    requires ContentsOk(c)
    ensures forall i | 0 <= i < |c.properties| :: PlainName(c.properties[i].name) && OneLine(c.properties[i].definition)
    ensures forall k: Kind :: PlainListing(c.values(k))
  {
    hide PlainListing, LineRun, Trimmed, PlainName;
  }

  lemma PropertySectionOk(c: Contents, p: Prose)
    requires ContentsOk(c) && ProseOk(p)
    ensures LinesOk(["## Properties", ""] + (p.propertiesIntro + (PropertyLines(c.properties) + [""])))
  {
    hide *;
    DefinitionsFine(c);
    DeclaredLines(c.properties);
    SectionHeadsOk();
    ProseLines(p);
    LinesOkConcat(PropertyLines(c.properties), [""]);
    LinesOkConcat(p.propertiesIntro, PropertyLines(c.properties) + [""]);
    LinesOkConcat(["## Properties", ""], p.propertiesIntro + (PropertyLines(c.properties) + [""]));
  }

  lemma RenderedLinesOk(c: Contents, p: Prose)
    requires ContentsOk(c) && ProseOk(p)
    ensures LinesOk(RenderedLines(c, p))
  {
    hide *;
    DefinitionsFine(c);
    ProseLines(p);
    PropertySectionOk(c, p);
    HubSectionOk(c, p);
    RenderedAs(c, p);
    KindLinesOk(c, NoteTypes);
    KindLinesOk(c, Of(Status));
    KindLinesOk(c, Of(Domain));
    KindLinesOk(c, Of(SourceKind));
    KindLinesOk(c, Of(CaptureType));
    var k5 := HubSection(c, p) + p.rest;
    LinesOkConcat(HubSection(c, p), p.rest);
    var k4 := KindLines(c, Of(CaptureType)) + k5;
    LinesOkConcat(KindLines(c, Of(CaptureType)), k5);
    var k3 := KindLines(c, Of(SourceKind)) + k4;
    LinesOkConcat(KindLines(c, Of(SourceKind)), k4);
    var k2 := KindLines(c, Of(Domain)) + k3;
    LinesOkConcat(KindLines(c, Of(Domain)), k3);
    var k1 := KindLines(c, Of(Status)) + k2;
    LinesOkConcat(KindLines(c, Of(Status)), k2);
    var k0 := KindLines(c, NoteTypes) + k1;
    LinesOkConcat(KindLines(c, NoteTypes), k1);
    var front := ["## Properties", ""] + (p.propertiesIntro + (PropertyLines(c.properties) + [""]));
    LinesOkConcat(front, k0);
    LinesOkConcat(p.preamble, front + k0);
  }

  lemma {:induction false} SomeLineStays(lines: seq<string>, i: nat)
    requires i < |lines| && lines[i] != ""
    ensures DropBlanks(lines) != []
    decreases |lines|
  {
    if lines[|lines| - 1] == "" {
      assert lines[..|lines| - 1][i] == lines[i];
      SomeLineStays(lines[..|lines| - 1], i);
    }
  }

  /** Parsing the text of the printed note gives back exactly its properties with their types, its
      values, its hubs by domain, and every definition, stripped. */
  lemma NoteReadsBack(c: Contents, p: Prose)
    requires ContentsOk(c) && ProseOk(p)
    ensures var r := TakeLines(EMPTY, SplitLines(NoteText(RenderedLines(c, p))));
            && r.properties == StrippedProperties(c.properties)
            && (forall k: Kind :: r.Read(k) == Stripped(c.values(k)))
            && r.hubs == HubsTo(c.hubs, |c.hubs|)
  {
    hide *;
    var lines := RenderedLines(c, p);
    RenderedLinesOk(c, p);
    RenderedAs(c, p);
    assert lines[|p.preamble|] == "## Properties";
    SomeLineStays(lines, |p.preamble|);
    TextLines(lines);
    BlanksDropped(EMPTY, lines);
    RoundTrip(c, p);
  }

  // ---- the printer at work ----

  method AppendValues(lines: seq<string>, l: Listing) returns (out: seq<string>)
    ensures out == lines + ValueLines(l)
  {
    hide ValueLine;
    out := lines;
    for i := 0 to |l|
      invariant out == lines + ValueLines(l)[..i]
    {
      out := out + [ValueLine(l[i].0, l[i].1)];
    }
  }

  function HubBlock(h: (string, Listing)): seq<string> {
    ["### " + h.0, ""] + ValueLines(h.1) + [""]
  }

  lemma HubLinesHead(hubs: seq<(string, Listing)>)
    requires hubs != []
    ensures HubLines(hubs) == HubBlock(hubs[0]) + HubLines(hubs[1..])
  {
    hide ValueLines;
  }

  lemma HubLinesOne(h: (string, Listing))
    ensures HubLines([h]) == HubBlock(h)
  {
    hide HubBlock;
    HubLinesHead([h]);
    NoHubLines();
    assert [h][1..] == [] && HubBlock(h) + [] == HubBlock(h);
  }

  lemma {:induction false} HubLinesConcat(a: seq<(string, Listing)>, h: (string, Listing))
    ensures HubLines(a + [h]) == HubLines(a) + HubBlock(h)
  {
    hide *;
    if a == [] {
      HubLinesOne(h);
      NoHubLines();
      assert [] + [h] == [h] && [] + HubBlock(h) == HubBlock(h);
    } else {
      assert (a + [h])[1..] == a[1..] + [h] && (a + [h])[0] == a[0];
      HubLinesHead(a + [h]);
      HubLinesHead(a);
      HubLinesConcat(a[1..], h);
      Three(HubBlock(a[0]), HubLines(a[1..]), HubBlock(h));
    }
  }

  lemma HubLinesSnoc(hubs: seq<(string, Listing)>, i: nat)
    requires i < |hubs|
    ensures HubLines(hubs[..i + 1]) == HubLines(hubs[..i]) + (["### " + hubs[i].0, ""] + ValueLines(hubs[i].1) + [""])
  {
    hide HubLines, ValueLines;
    assert hubs[..i + 1] == hubs[..i] + [hubs[i]];
    HubLinesConcat(hubs[..i], hubs[i]);
  }

  method AppendProperties(lines: seq<string>, ds: seq<Declared>) returns (out: seq<string>)
    ensures out == lines + PropertyLines(ds)
  {
    hide ValueLine, PropertyLabel;
    out := lines;
    for i := 0 to |ds|
      invariant out == lines + PropertyLines(ds)[..i]
    {
      out := out + [ValueLine(PropertyLabel(ds[i]), ds[i].definition)];
    }
  }

  method AppendKinds(lines: seq<string>, c: Contents, kinds: seq<Kind>) returns (out: seq<string>)
    ensures out == lines + KindsTo(c, kinds, |kinds|)
  {
    hide KindHeading, ValueLines;
    out := lines;
    for k := 0 to |kinds|
      invariant out == lines + KindsTo(c, kinds, k)
    {
      out := AppendValues(out + [KindHeading(kinds[k]), ""], c.values(kinds[k]));
      out := out + [""];
    }
  }

  method AppendHubs(lines: seq<string>, hubs: seq<(string, Listing)>) returns (out: seq<string>)
    ensures out == lines + HubLines(hubs)
  {
    hide HubLines, ValueLines;
    out := lines;
    NoHubLines();
    for i := 0 to |hubs|
      invariant out == lines + HubLines(hubs[..i])
    {
      HubLinesSnoc(hubs, i);
      out := AppendValues(out + ["### " + hubs[i].0, ""], hubs[i].1);
      out := out + [""];
    }
    assert hubs[..|hubs|] == hubs;
  }

  /** `render_schema_note`: the lines appended section by section, then joined. */
  method RenderNote(c: Contents, p: Prose) returns (text: string)
    ensures text == NoteText(RenderedLines(c, p))
  {
    hide *;
    var lines := p.preamble + ["## Properties", ""] + p.propertiesIntro;
    lines := AppendProperties(lines, c.properties);
    lines := lines + [""];
    var kinds := [NoteTypes, Of(Status), Of(Domain), Of(SourceKind), Of(CaptureType)];
    lines := AppendKinds(lines, c, kinds);
    FiveKinds(c, kinds);
    lines := lines + ["## Topic hubs", ""] + p.hubsIntro;
    if c.hubs == [] {
      lines := lines + [NoHubsLine(), ""];
    } else {
      lines := AppendHubs(lines, c.hubs);
    }
    lines := lines + p.rest;
    Assembled(c, p, lines);
    text := NoteText(lines);
  }

  lemma NoHubLines()
    ensures HubLines([]) == []
  {
  }

  function KindsTo(c: Contents, kinds: seq<Kind>, k: nat): seq<string>
    requires k <= |kinds|
  {
    if k == 0 then [] else KindsTo(c, kinds, k - 1) + KindLines(c, kinds[k - 1])
  }

  lemma FiveKinds(c: Contents, kinds: seq<Kind>)
    requires kinds == [NoteTypes, Of(Status), Of(Domain), Of(SourceKind), Of(CaptureType)]
    ensures KindsTo(c, kinds, 5) == KindLines(c, NoteTypes) + KindLines(c, Of(Status)) + KindLines(c, Of(Domain))
              + KindLines(c, Of(SourceKind)) + KindLines(c, Of(CaptureType))
  {
    hide KindLines;
    assert [] + KindLines(c, NoteTypes) == KindLines(c, NoteTypes);
    assert KindsTo(c, kinds, 0) == [];
    assert KindsTo(c, kinds, 1) == KindLines(c, NoteTypes);
    assert KindsTo(c, kinds, 2) == KindsTo(c, kinds, 1) + KindLines(c, Of(Status));
    assert KindsTo(c, kinds, 3) == KindsTo(c, kinds, 2) + KindLines(c, Of(Domain));
    assert KindsTo(c, kinds, 4) == KindsTo(c, kinds, 3) + KindLines(c, Of(SourceKind));
  }

  lemma Assembled(c: Contents, p: Prose, lines: seq<string>)
    requires lines == p.preamble + ["## Properties", ""] + p.propertiesIntro + PropertyLines(c.properties) + [""]
               + (KindLines(c, NoteTypes) + KindLines(c, Of(Status)) + KindLines(c, Of(Domain))
                  + KindLines(c, Of(SourceKind)) + KindLines(c, Of(CaptureType)))
               + ["## Topic hubs", ""] + p.hubsIntro + (if c.hubs == [] then [NoHubsLine(), ""] else HubLines(c.hubs)) + p.rest
    ensures lines == RenderedLines(c, p)
  {
    hide *;
    HubSectionIs(c, p);
    RenderedAs(c, p);
    var body := if c.hubs == [] then [NoHubsLine(), ""] else HubLines(c.hubs);
    var hub := HubSection(c, p);
    assert hub == ["## Topic hubs", ""] + p.hubsIntro + body;
    var front := p.preamble + ["## Properties", ""] + p.propertiesIntro + PropertyLines(c.properties) + [""];
    var kinds := KindLines(c, NoteTypes) + KindLines(c, Of(Status)) + KindLines(c, Of(Domain))
                  + KindLines(c, Of(SourceKind)) + KindLines(c, Of(CaptureType));
    assert front == p.preamble + (["## Properties", ""] + (p.propertiesIntro + (PropertyLines(c.properties) + [""])));
    Tail(front + kinds, ["## Topic hubs", ""], p.hubsIntro, body, p.rest);
    assert lines == front + kinds + (hub + p.rest);
    Three(front, kinds, hub + p.rest);
    FiveNested(KindLines(c, NoteTypes), KindLines(c, Of(Status)), KindLines(c, Of(Domain)),
               KindLines(c, Of(SourceKind)), KindLines(c, Of(CaptureType)), hub + p.rest);
  }

  lemma Three(a: seq<string>, b: seq<string>, c: seq<string>)
    ensures a + b + c == a + (b + c)
  {
  }

  lemma Tail(a: seq<string>, b: seq<string>, c: seq<string>, d: seq<string>, e: seq<string>)
    ensures a + b + c + d + e == a + (b + c + d + e)
  {
  }

  lemma FiveNested(a: seq<string>, b: seq<string>, c: seq<string>, d: seq<string>, e: seq<string>, f: seq<string>)
    ensures a + b + c + d + e + f == a + (b + (c + (d + (e + f))))
  {
    assert d + e + f == d + (e + f);
    assert c + d + e + f == c + (d + (e + f));
  }
}
