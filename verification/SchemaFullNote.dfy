/** The whole schema note as one text, and what its three parsers make of it together: the values and
    hubs, the folder layout, and the dashboard requests (`schema_note.py`). */
module SchemaFullNote {
  import opened Text
  import opened NoteBody
  import opened MarkdownTable
  import opened SchemaSync
  import opened SchemaTerms
  import opened SchemaNote
  import opened SchemaNoteText
  import opened SchemaGuard
  import opened SchemaOwnNote
  import opened VaultLayout
  import Dashboard
  import FolderTable
  import VaultPaths

  // ---- printing ----

  /** The fixed wording of the note, section by section; the rules are everything after the dashboards. */
  datatype Wording = Wording(
    preamble: seq<string>, propertiesIntro: seq<string>, hubsIntro: seq<string>,
    foldersIntro: seq<string>, dashboardsIntro: seq<string>, rules: seq<string>)

  function FoldersHeading(): string { "## Folder Structure" }

  /** The row of a stored request: it says nothing of being enabled, so it is printed without a tick. */
  function RequestRow(p: (string, string)): string {
    RowOf([" ", Strip(p.0), Strip(p.1), ""])
  }

  function RequestRows(requests: seq<(string, string)>): seq<string> {
    if requests == [] then []
    else (if Strip(requests[0].0) == "" || Strip(requests[0].1) == "" then [] else [RequestRow(requests[0])])
         + RequestRows(requests[1..])
  }

  /** What stands between the markers. */
  function RequestTable(requests: seq<(string, string)>): seq<string> {
    [Dashboard.TableHeader(), Dashboard.TableDivider()] + RequestRows(requests)
  }

  function AfterFolders(requests: seq<(string, string)>, w: Wording): seq<string> {
    [Dashboard.Heading()]
      + (w.dashboardsIntro + ([Dashboard.StartMarker()] + (RequestTable(requests) + ([Dashboard.EndMarker()] + ([""] + w.rules)))))
  }

  /** Everything after the hubs. */
  function AfterHubs(l: Layout, f: FolderTable.Wording, requests: seq<(string, string)>, w: Wording): seq<string> {
    FolderTable.SectionLines(l, f, FoldersHeading(), w.foldersIntro) + AfterFolders(requests, w)
  }

  function AsProse(l: Layout, f: FolderTable.Wording, requests: seq<(string, string)>, w: Wording): Prose {
    Prose(w.preamble, w.propertiesIntro, w.hubsIntro, AfterHubs(l, f, requests, w))
  }

  /** `render_schema_note`. */
  function FullLines(c: Contents, l: Layout, f: FolderTable.Wording, requests: seq<(string, string)>, w: Wording): seq<string> {
    RenderedLines(c, AsProse(l, f, requests, w))
  }

  function FullText(c: Contents, l: Layout, f: FolderTable.Wording, requests: seq<(string, string)>, w: Wording): string {
    NoteText(FullLines(c, l, f, requests, w))
  }

  /** Everything up to and including the hubs. */
  function Front(c: Contents, w: Wording): seq<string> {
    RenderedLines(c, Prose(w.preamble, w.propertiesIntro, w.hubsIntro, []))
  }

  // ---- what can be printed ----

  ghost predicate WordingOk(w: Wording) {
    && (forall i | 0 <= i < |w.preamble| :: OneLine(w.preamble[i]) && ParseHeading(w.preamble[i]).None?)
    && (forall i | 0 <= i < |w.propertiesIntro| :: Idle(w.propertiesIntro[i]))
    && (forall i | 0 <= i < |w.hubsIntro| :: Idle(w.hubsIntro[i]))
    && (forall i | 0 <= i < |w.foldersIntro| ::
          OneLine(w.foldersIntro[i]) && ParseHeading(w.foldersIntro[i]).None? && FolderTable.Plain(w.foldersIntro[i]))
    && (forall i | 0 <= i < |w.dashboardsIntro| :: OneLine(w.dashboardsIntro[i]) && ParseHeading(w.dashboardsIntro[i]).None?)
    && (forall i | 0 <= i < |w.rules| :: Foreign(w.rules[i]))
  }

  /** Every folder row is one line. */
  ghost predicate RowsOneLine(l: Layout, f: FolderTable.Wording) {
    forall line | line in FolderTable.TableLines(l, f) :: OneLine(line)
  }

  /** Every request can be printed in a row of its own. */
  ghost predicate RequestsOk(requests: seq<(string, string)>) {
    forall i | 0 <= i < |requests| :: Dashboard.Plain((Strip(requests[i].0), Strip(requests[i].1)))
  }

  ghost predicate Unmarked(lines: seq<string>) {
    forall i | 0 <= i < |lines| :: Dashboard.MarkerFree(lines[i])
  }

  /** No line before the dashboard table holds one of its markers. */
  ghost predicate MarksApart(c: Contents, l: Layout, f: FolderTable.Wording, w: Wording) {
    Unmarked(Front(c, w)) && Unmarked(FolderTable.SectionLines(l, f, FoldersHeading(), w.foldersIntro)) && Unmarked(w.dashboardsIntro)
  }

  ghost predicate LayoutOk(l: Layout, f: FolderTable.Wording) {
    ValidLayout(l) && FolderTable.Unprotected(l) && FolderTable.Printable(l) && FolderTable.WordingOk(f) && RowsOneLine(l, f)
  }

  // ---- lines that no other parser reads ----

  lemma NoHeading(line: string)
    requires line != "" && line[0] != '#'
    ensures ParseHeading(line).None?
  {
    hide Strip, IsSpace;
  }

  lemma PlainForeign(line: string)
    requires OneLine(line) && ParseHeading(line).None?
    ensures Foreign(line)
  {
    hide ParseHeading, LineRun;
  }

  lemma HeadingForeign(title: string)
    requires title != "" && Trimmed(title) && OneLine(title) && SectionOf(LowerAscii(title)).NoSection?
    ensures Foreign("## " + title) && ParseHeading("## " + title) == Some((2, title))
  {
    HeadingTwo(title);
    AsciiOneLine("## ");
    hide ParseHeading, SectionOf, LowerAscii, IsSpace, IsBreak;
    OneLineConcat("## ", title);
  }

  lemma FolderTitle()
    ensures FoldersHeading() == "## " + "Folder Structure" && LowerAscii("Folder Structure") == FolderTable.FoldersTitle()
    ensures Trimmed("Folder Structure")
  {
  }

  lemma DashboardTitle()
    ensures Dashboard.Heading() == "## " + "Dashboards" && Dashboard.Heading() != "" && FolderTable.IsSectionLine(Dashboard.Heading())
    ensures LowerAscii("Dashboards") == "dashboards" && Trimmed("Dashboards")
  {
  }

  lemma NoSuchSections()
    ensures SectionOf(FolderTable.FoldersTitle()).NoSection? && SectionOf("dashboards").NoSection?
  {
    assert |FolderTable.FoldersTitle()| == 16 && FolderTable.FoldersTitle()[0] == 'f';
    assert |"dashboards"| == 10 && "dashboards"[0] == 'd' && "dashboards"[1] == 'a';
  }

  lemma FoldersLineFrom(title: string)
    requires title != "" && Trimmed(title) && LowerAscii(title) == FolderTable.FoldersTitle()
    ensures FolderTable.IsFoldersLine("## " + title)
  {
    SpaceBefore(title);
    MarksTwo(title);
    assert IsSpace(' ');
    hide Strip, LowerAscii, IsSpace, Trimmed, FolderTable.FoldersTitle;
  }

  lemma TitlesForeign()
    ensures Foreign(FoldersHeading()) && ParseHeading(FoldersHeading()).Some?
    ensures Foreign(Dashboard.Heading()) && FolderTable.IsSectionLine(Dashboard.Heading()) && Dashboard.Heading() != ""
    ensures FolderTable.IsFoldersLine(FoldersHeading())
  {
    hide *;
    FolderTitle();
    DashboardTitle();
    NoSuchSections();
    AsciiOneLine("Folder Structure");
    AsciiOneLine("Dashboards");
    FoldersLineFrom("Folder Structure");
    HeadingForeign("Folder Structure");
    HeadingForeign("Dashboards");
  }

  // ---- the tail is foreign to the parser of values and hubs ----

  predicate AllForeign(lines: seq<string>) {
    forall i | 0 <= i < |lines| :: Foreign(lines[i])
  }

  lemma ForeignConcat(a: seq<string>, b: seq<string>)
    requires AllForeign(a) && AllForeign(b)
    ensures AllForeign(a + b)
  {
    hide Foreign;
  }

  lemma ForeignOne(line: string)
    requires Foreign(line)
    ensures AllForeign([line])
  {
    hide Foreign;
  }

  lemma BlankForeign()
    ensures Foreign("")
  {
    FixedOneLine();
    hide OneLine;
    BlankIdle();
  }

  lemma FolderRowsForeign(l: Layout, f: FolderTable.Wording)
    requires RowsOneLine(l, f)
    ensures AllForeign(FolderTable.TableLines(l, f))
  {
    var lines := FolderTable.TableLines(l, f);
    hide FolderTable.Row, Foreign, LineRun, RowOf;
    forall i | 0 <= i < |lines| ensures Foreign(lines[i]) {
      assert lines[i] in lines;
      TableStart(l, f, lines[i]);
      NoHeading(lines[i]);
      PlainForeign(lines[i]);
    }
  }

  lemma {:induction false} RoleStart(l: Layout, f: FolderTable.Wording, n: nat, line: string)
    requires n <= ROLE_COUNT && line in FolderTable.RoleRows(l, f, n)
    ensures line != "" && line[0] == '|'
  {
    hide RoleAt, FolderTable.RoleName, VaultPaths.Join, Strip, Inner;
    if line !in FolderTable.RoleRows(l, f, n - 1) {
      assert line == FolderTable.Row(FolderTable.RoleName(RoleAt(n - 1)), l.content.At(RoleAt(n - 1)), f.role(RoleAt(n - 1)));
    } else {
      RoleStart(l, f, n - 1, line);
    }
  }

  lemma TableStart(l: Layout, f: FolderTable.Wording, line: string)
    requires line in FolderTable.TableLines(l, f)
    ensures line != "" && line[0] == '|'
  {
    FolderTable.TableLinesAre(l, f);
    hide FolderTable.TableLines, Strip, Inner;
    if line in FolderTable.RoleRows(l, f, ROLE_COUNT) { RoleStart(l, f, ROLE_COUNT, line); }
    hide FolderTable.RoleRows;
  }

  lemma StartAscii()
    ensures forall i | 0 <= i < |Dashboard.StartMarker()| :: ' ' <= Dashboard.StartMarker()[i] <= '~'
  {
  }

  lemma EndAscii()
    ensures forall i | 0 <= i < |Dashboard.EndMarker()| :: ' ' <= Dashboard.EndMarker()[i] <= '~'
  {
  }

  lemma MarkersForeign()
    ensures Foreign(Dashboard.StartMarker()) && Foreign(Dashboard.EndMarker()) && Dashboard.EndMarker() != ""
  {
    hide *;
    StartAscii();
    EndAscii();
    Dashboard.MarkersDiffer();
    AsciiOneLine(Dashboard.StartMarker());
    AsciiOneLine(Dashboard.EndMarker());
    NoHeading(Dashboard.StartMarker());
    NoHeading(Dashboard.EndMarker());
    PlainForeign(Dashboard.StartMarker());
    PlainForeign(Dashboard.EndMarker());
  }

  /** A row of the request table: one line, no marker, no tick. */
  predicate RequestLine(line: string) {
    OneLine(line) && Dashboard.MarkerFree(line) && Dashboard.Request(line).None? && line != "" && line[0] == '|'
  }

  predicate CellOk(cell: string) {
    LineRun(cell) == |cell| && Dashboard.MarkerFree(cell)
  }

  lemma EdgeCells()
    ensures CellOk(" ") && CellOk("")
  {
    Dashboard.MarksFree();
    Dashboard.FreeOf("");
    hide Dashboard.MarkerFree;
  }

  lemma PairCells(property: string, value: string)
    requires Dashboard.Plain((property, value))
    ensures CellOk(property) && CellOk(value)
  {
    hide Dashboard.MarkerFree, LineRun;
  }

  lemma NotRequested(line: string)
    requires Cells(line).Some? && Cells(line).value != [] && Cells(line).value[0] == ""
    ensures Dashboard.Request(line).None?
  {
    assert !Dashboard.Ticked("") by { assert LowerAscii("") == ""; }
    hide Dashboard.Ticked, Cells, Dashboard.Scaffold;
  }

  lemma RequestRowOk(p: (string, string))
    requires Dashboard.Plain((Strip(p.0), Strip(p.1)))
    ensures RequestLine(RequestRow(p))
  {
    EdgeCells();
    PairCells(Strip(p.0), Strip(p.1));
    hide LineRun, Dashboard.MarkerFree, Strip;
    var cells := [" ", Strip(p.0), Strip(p.1), ""];
    assert RowOf(cells)[0] == '|' && '|' !in cells[0] && RequestRow(p) == RowOf(cells);
    BlankPad();
    assert forall i | 0 <= i < |cells| :: LineRun(cells[i]) == |cells[i]| && Dashboard.MarkerFree(cells[i]);
    hide RowOf, Dashboard.MarkerFree, Strip, Pad, Cells, LineRun, RequestRow, Dashboard.Request;
    Dashboard.FreeRow(cells);
    Dashboard.UnbrokenRow(cells);
    FirstCell(cells);
    NotRequested(RowOf(cells));
  }

  lemma {:induction false} RequestRowsOk(requests: seq<(string, string)>)
    requires RequestsOk(requests)
    ensures forall i | 0 <= i < |RequestRows(requests)| :: RequestLine(RequestRows(requests)[i])
  {
    hide Dashboard.Plain, RequestRow, RequestLine, Strip;
    if requests != [] {
      RequestRowOk(requests[0]);
      RequestRowsOk(requests[1..]);
    }
  }

  lemma ScaffoldLines()
    ensures RequestLine(Dashboard.TableHeader()) && RequestLine(Dashboard.TableDivider())
  {
    Dashboard.ScaffoldRows();
    assert Dashboard.TableHeader()[0] == '|' && Dashboard.TableDivider()[0] == '|';
    hide Dashboard.TableHeader, Dashboard.TableDivider, Dashboard.Request, Dashboard.MarkerFree, LineRun;
  }

  lemma RequestTableOk(requests: seq<(string, string)>)
    requires RequestsOk(requests)
    ensures forall i | 0 <= i < |RequestTable(requests)| :: RequestLine(RequestTable(requests)[i])
  {
    hide RequestLine, Dashboard.TableHeader, Dashboard.TableDivider, Dashboard.Plain;
    ScaffoldLines();
    RequestRowsOk(requests);
  }

  lemma RequestForeign(line: string)
    requires RequestLine(line)
    ensures Foreign(line)
  {
    NoHeading(line);
    hide ParseHeading, LineRun, Dashboard.MarkerFree, Dashboard.Request;
  }

  lemma RequestTableForeign(requests: seq<(string, string)>)
    requires RequestsOk(requests)
    ensures AllForeign(RequestTable(requests))
  {
    RequestTableOk(requests);
    var lines := RequestTable(requests);
    hide RequestLine, Foreign, RequestTable;
    forall i | 0 <= i < |lines| ensures Foreign(lines[i]) { RequestForeign(lines[i]); }
  }

  lemma WordingForeign(w: Wording)
    requires WordingOk(w)
    ensures AllForeign(w.foldersIntro) && AllForeign(w.dashboardsIntro) && AllForeign(w.rules)
  {
    hide ParseHeading, OneLine, Foreign, Idle, FolderTable.Plain;
    forall i | 0 <= i < |w.foldersIntro| ensures Foreign(w.foldersIntro[i]) { PlainForeign(w.foldersIntro[i]); }
    forall i | 0 <= i < |w.dashboardsIntro| ensures Foreign(w.dashboardsIntro[i]) { PlainForeign(w.dashboardsIntro[i]); }
  }

  lemma AfterFoldersForeign(requests: seq<(string, string)>, w: Wording)
    requires RequestsOk(requests) && WordingOk(w)
    ensures AllForeign(AfterFolders(requests, w))
  {
    assert AfterFolders(requests, w)
        == [Dashboard.Heading()]
             + (w.dashboardsIntro + ([Dashboard.StartMarker()] + (RequestTable(requests) + ([Dashboard.EndMarker()] + ([""] + w.rules)))));
    hide *;
    TitlesForeign();
    MarkersForeign();
    BlankForeign();
    ForeignOne(Dashboard.Heading());
    ForeignOne(Dashboard.StartMarker());
    ForeignOne(Dashboard.EndMarker());
    ForeignOne("");
    WordingForeign(w);
    RequestTableForeign(requests);
    ForeignConcat([""], w.rules);
    ForeignConcat([Dashboard.EndMarker()], [""] + w.rules);
    ForeignConcat(RequestTable(requests), [Dashboard.EndMarker()] + ([""] + w.rules));
    ForeignConcat([Dashboard.StartMarker()], RequestTable(requests) + ([Dashboard.EndMarker()] + ([""] + w.rules)));
    ForeignConcat(w.dashboardsIntro, [Dashboard.StartMarker()] + (RequestTable(requests) + ([Dashboard.EndMarker()] + ([""] + w.rules))));
    ForeignConcat([Dashboard.Heading()],
      w.dashboardsIntro + ([Dashboard.StartMarker()] + (RequestTable(requests) + ([Dashboard.EndMarker()] + ([""] + w.rules)))));
  }

  lemma AfterHubsForeign(l: Layout, f: FolderTable.Wording, requests: seq<(string, string)>, w: Wording)
    requires RowsOneLine(l, f) && RequestsOk(requests) && WordingOk(w)
    ensures AllForeign(AfterHubs(l, f, requests, w))
    ensures AfterHubs(l, f, requests, w) != [] && AfterHubs(l, f, requests, w)[0] == FoldersHeading()
  {
    assert AfterHubs(l, f, requests, w) == FolderTable.SectionLines(l, f, FoldersHeading(), w.foldersIntro) + AfterFolders(requests, w) by {
      hide FolderTable.SectionLines, AfterFolders;
    }
    hide *;
    FolderTable.SectionIs(l, f, FoldersHeading(), w.foldersIntro);
    TitlesForeign();
    BlankForeign();
    ForeignOne(FoldersHeading());
    ForeignOne("");
    WordingForeign(w);
    FolderRowsForeign(l, f);
    AfterFoldersForeign(requests, w);
    ForeignConcat(FolderTable.TableLines(l, f), [""]);
    ForeignConcat(w.foldersIntro, FolderTable.TableLines(l, f) + [""]);
    ForeignConcat([FoldersHeading()], w.foldersIntro + (FolderTable.TableLines(l, f) + [""]));
    ForeignConcat(FolderTable.SectionLines(l, f, FoldersHeading(), w.foldersIntro), AfterFolders(requests, w));
  }

  lemma ProseFrom(p: Prose)
    requires forall i | 0 <= i < |p.preamble| :: OneLine(p.preamble[i]) && ParseHeading(p.preamble[i]).None?
    requires forall i | 0 <= i < |p.propertiesIntro| :: Idle(p.propertiesIntro[i])
    requires forall i | 0 <= i < |p.hubsIntro| :: Idle(p.hubsIntro[i])
    requires p.rest != [] && AllForeign(p.rest) && ParseHeading(p.rest[0]).Some?
    ensures ProseOk(p)
  {
    hide Foreign, ParseHeading, Idle, LineRun;
  }

  lemma ProseReady(l: Layout, f: FolderTable.Wording, requests: seq<(string, string)>, w: Wording)
    requires RowsOneLine(l, f) && RequestsOk(requests) && WordingOk(w)
    ensures ProseOk(AsProse(l, f, requests, w))
  {
    var p := AsProse(l, f, requests, w);
    assert p == Prose(w.preamble, w.propertiesIntro, w.hubsIntro, AfterHubs(l, f, requests, w));
    WordingLines(w);
    hide *;
    AfterHubsForeign(l, f, requests, w);
    TitlesForeign();
    ProseFrom(p);
  }

  lemma WordingLines(w: Wording)
    requires WordingOk(w)
    ensures forall i | 0 <= i < |w.preamble| :: OneLine(w.preamble[i]) && ParseHeading(w.preamble[i]).None?
    ensures forall i | 0 <= i < |w.propertiesIntro| :: Idle(w.propertiesIntro[i])
    ensures forall i | 0 <= i < |w.hubsIntro| :: Idle(w.hubsIntro[i])
    ensures forall i | 0 <= i < |w.foldersIntro| :: FolderTable.Plain(w.foldersIntro[i])
  {
    hide Foreign, ParseHeading, Idle, OneLine, FolderTable.Plain;
  }

  // ---- the front holds no folder heading ----

  predicate NoFolders(lines: seq<string>) {
    forall i | 0 <= i < |lines| :: !FolderTable.IsFoldersLine(lines[i])
  }

  lemma NoFoldersConcat(a: seq<string>, b: seq<string>)
    requires NoFolders(a) && NoFolders(b)
    ensures NoFolders(a + b)
  {
    hide FolderTable.IsFoldersLine;
  }

  /** The folder heading is a heading of level two that opens no section. */
  lemma FoldersLineIs(line: string)
    ensures FolderTable.IsFoldersLine(line) ==> ParseHeading(line).Some? && ParseHeading(line).value.0 == 2
    ensures FolderTable.IsFoldersLine(line) ==> SectionOf(LowerAscii(ParseHeading(line).value.1)).NoSection?
  {
    NoSuchSections();
    assert !IsSpace('#');
    assert LowerAscii("") == "";
    hide Strip, SectionOf, IsSpace, LowerAscii;
    if FolderTable.IsFoldersLine(line) { assert Strip(line[2..]) != ""; }
  }

  lemma NotFolders(line: string)
    requires ParseHeading(line).None? || ParseHeading(line).value.0 == 3
          || !SectionOf(LowerAscii(ParseHeading(line).value.1)).NoSection?
    ensures !FolderTable.IsFoldersLine(line)
  {
    FoldersLineIs(line);
    hide FolderTable.IsFoldersLine, ParseHeading, SectionOf, LowerAscii;
  }

  lemma NoFoldersOne(line: string)
    requires !FolderTable.IsFoldersLine(line) && !FolderTable.IsFoldersLine("")
    ensures NoFolders([line, ""]) && NoFolders([""]) && NoFolders([line])
  {
    hide FolderTable.IsFoldersLine;
  }

  lemma BlankNotFolders()
    ensures !FolderTable.IsFoldersLine("")
  {
  }

  lemma ListingNoFolders(l: Listing)
    requires PlainListing(l)
    ensures NoFolders(ValueLines(l))
  {
    hide FolderTable.IsFoldersLine, ValueLine, PlainValue;
    forall i | 0 <= i < |l| ensures !FolderTable.IsFoldersLine(ValueLine(l[i].0, l[i].1)) {
      ValueLineReadsBack(l[i].0, l[i].1);
      NotFolders(ValueLine(l[i].0, l[i].1));
    }
  }

  lemma PropertiesNoFolders(ds: seq<Declared>)
    requires forall i | 0 <= i < |ds| :: PlainName(ds[i].name)
    ensures NoFolders(PropertyLines(ds))
  {
    hide FolderTable.IsFoldersLine, ValueLine, PlainName, PropertyLabel;
    forall i | 0 <= i < |ds| ensures !FolderTable.IsFoldersLine(ValueLine(PropertyLabel(ds[i]), ds[i].definition)) {
      PropertyLineReadsBack(ds[i]);
      NotFolders(ValueLine(PropertyLabel(ds[i]), ds[i].definition));
    }
  }

  lemma TitleNoFolders(title: string)
    requires title != "" && Trimmed(title) && !SectionOf(LowerAscii(title)).NoSection?
    ensures NoFolders(["## " + title, ""]) && NoFolders([""])
  {
    hide *;
    HeadingTwo(title);
    NotFolders("## " + title);
    BlankNotFolders();
    NoFoldersOne("## " + title);
  }

  lemma KindNoFolders(c: Contents, k: Kind)
    requires PlainListing(c.values(k))
    ensures NoFolders(KindLines(c, k))
  {
    hide *;
    TitleShape(k);
    TitleSection(k);
    TitleNoFolders(KindTitle(k));
    ListingNoFolders(c.values(k));
    KindLinesAre(c, k);
    NoFoldersConcat(ValueLines(c.values(k)), [""]);
    NoFoldersConcat([KindHeading(k), ""], ValueLines(c.values(k)) + [""]);
  }

  lemma {:induction false} HubsNoFolders(hubs: seq<(string, Listing)>)
    requires forall i | 0 <= i < |hubs| :: HubOk(hubs[i]) && PlainListing(hubs[i].1)
    ensures NoFolders(HubLines(hubs))
  {
    if hubs != [] {
      assert HubOk(hubs[0]) && PlainListing(hubs[0].1);
      HubsNoFolders(hubs[1..]);
      HubHeadNoFolders(hubs[0]);
      ListingNoFolders(hubs[0].1);
      hide NoFolders, ValueLines, HubOk, PlainListing;
      NoFoldersConcat([""], HubLines(hubs[1..]));
      NoFoldersConcat(ValueLines(hubs[0].1), [""] + HubLines(hubs[1..]));
      NoFoldersConcat(["### " + hubs[0].0, ""], ValueLines(hubs[0].1) + ([""] + HubLines(hubs[1..])));
    }
  }

  lemma HubHeadNoFolders(h: (string, Listing))
    requires HubOk(h)
    ensures NoFolders(["### " + h.0, ""]) && NoFolders([""])
  {
    assert h.0 != "" && Trimmed(h.0);
    hide *;
    HeadingThree(h.0);
    NotFolders("### " + h.0);
    BlankNotFolders();
    NoFoldersOne("### " + h.0);
  }

  lemma IdleNoFolders(lines: seq<string>)
    requires forall i | 0 <= i < |lines| :: ParseHeading(lines[i]).None?
    ensures NoFolders(lines)
  {
    hide FolderTable.IsFoldersLine, ParseHeading;
    forall i | 0 <= i < |lines| ensures !FolderTable.IsFoldersLine(lines[i]) { NotFolders(lines[i]); }
  }

  lemma WordingNoFolders(w: Wording)
    requires WordingOk(w)
    ensures NoFolders(w.preamble) && NoFolders(w.propertiesIntro) && NoFolders(w.hubsIntro)
  {
    hide FolderTable.IsFoldersLine, ParseHeading, OneLine, Foreign, FolderTable.Plain, NoFolders, LineRun, ParseBullet;
    IdleNoFolders(w.preamble);
    IdleNoFolders(w.propertiesIntro);
    IdleNoFolders(w.hubsIntro);
  }

  lemma NoHubsNoFolders()
    ensures NoFolders([NoHubsLine(), ""])
  {
    EmptyIdle();
    hide ParseHeading, FolderTable.IsFoldersLine, NoHubsLine, ParseBullet, LineRun;
    NotFolders(NoHubsLine());
    BlankNotFolders();
  }

  lemma HubSectionNoFolders(c: Contents, w: Wording, p: Prose)
    requires ContentsOk(c) && WordingOk(w) && p.hubsIntro == w.hubsIntro
    ensures NoFolders(HubSection(c, p))
  {
    hide *;
    HubSectionIs(c, p);
    HubsFine(c);
    HubsNoFolders(c.hubs);
    NoHubsNoFolders();
    OtherTitles();
    NotEmptyTitles();
    TitleNoFolders("Topic hubs");
    assert "## " + "Topic hubs" == "## Topic hubs";
    WordingNoFolders(w);
    var body := if c.hubs == [] then [NoHubsLine(), ""] else HubLines(c.hubs);
    NoFoldersConcat(w.hubsIntro, body);
    NoFoldersConcat(["## Topic hubs", ""], w.hubsIntro + body);
  }

  lemma NotEmptyTitles()
    ensures SectionOf(LowerAscii("Topic hubs")).HubsSection? ==> !SectionOf(LowerAscii("Topic hubs")).NoSection?
    ensures SectionOf(LowerAscii("Properties")).PropertySection? ==> !SectionOf(LowerAscii("Properties")).NoSection?
  {
    hide SectionOf, LowerAscii;
  }

  lemma FrontIs(c: Contents, w: Wording)
    ensures Front(c, w) == RenderedLines(c, Prose(w.preamble, w.propertiesIntro, w.hubsIntro, []))
  {
    hide RenderedLines;
  }

  lemma FrontNoFolders(c: Contents, w: Wording)
    requires ContentsOk(c) && WordingOk(w)
    ensures NoFolders(Front(c, w))
  {
    hide *;
    var p := Prose(w.preamble, w.propertiesIntro, w.hubsIntro, []);
    FrontIs(c, w);
    RenderedAs(c, p);
    DefinitionsFine(c);
    PropertiesNoFolders(c.properties);
    WordingNoFolders(w);
    HubSectionNoFolders(c, w, p);
    OtherTitles();
    TitleNoFolders("Properties");
    assert "## " + "Properties" == "## Properties";
    KindNoFolders(c, NoteTypes);
    KindNoFolders(c, Of(Status));
    KindNoFolders(c, Of(Domain));
    KindNoFolders(c, Of(SourceKind));
    KindNoFolders(c, Of(CaptureType));
    var k5 := HubSection(c, p) + [];
    assert k5 == HubSection(c, p);
    var k4 := KindLines(c, Of(CaptureType)) + k5;
    NoFoldersConcat(KindLines(c, Of(CaptureType)), k5);
    var k3 := KindLines(c, Of(SourceKind)) + k4;
    NoFoldersConcat(KindLines(c, Of(SourceKind)), k4);
    var k2 := KindLines(c, Of(Domain)) + k3;
    NoFoldersConcat(KindLines(c, Of(Domain)), k3);
    var k1 := KindLines(c, Of(Status)) + k2;
    NoFoldersConcat(KindLines(c, Of(Status)), k2);
    var k0 := KindLines(c, NoteTypes) + k1;
    NoFoldersConcat(KindLines(c, NoteTypes), k1);
    NoFoldersConcat(PropertyLines(c.properties), [""]);
    NoFoldersConcat(w.propertiesIntro, PropertyLines(c.properties) + [""]);
    NoFoldersConcat(["## Properties", ""], w.propertiesIntro + (PropertyLines(c.properties) + [""]));
    var front := ["## Properties", ""] + (w.propertiesIntro + (PropertyLines(c.properties) + [""]));
    NoFoldersConcat(front, k0);
    NoFoldersConcat(w.preamble, front + k0);
  }

  // ---- the text and its parts ----

  lemma {:induction false} DropBlanksConcat(a: seq<string>, b: seq<string>)
    requires DropBlanks(b) != []
    ensures DropBlanks(a + b) == a + DropBlanks(b)
    decreases |b|
  {
    var all := a + b;
    assert all[|all| - 1] == b[|b| - 1];
    if b[|b| - 1] == "" {
      assert all[..|all| - 1] == a + b[..|b| - 1];
      DropBlanksConcat(a, b[..|b| - 1]);
    }
  }

  lemma {:induction false} DropBlanksBehind(line: string, b: seq<string>)
    requires line != ""
    ensures DropBlanks([line] + b) == [line] + DropBlanks(b)
    decreases |b|
  {
    var all := [line] + b;
    if b == [] {
      assert all == [line] && DropBlanks([line]) == [line] && [line] + [] == [line];
    } else {
      assert all[|all| - 1] == b[|b| - 1];
      if b[|b| - 1] == "" {
        assert all[..|all| - 1] == [line] + b[..|b| - 1];
        DropBlanksBehind(line, b[..|b| - 1]);
      }
    }
  }

  lemma {:induction false} TerminatedConcat(a: seq<string>, b: seq<string>)
    ensures Terminated(a + b) == Terminated(a) + Terminated(b)
  {
    if a == [] {
      assert a + b == b && "" + Terminated(b) == Terminated(b);
    } else {
      assert (a + b)[1..] == a[1..] + b;
      TerminatedConcat(a[1..], b);
      Regroup(a[0], Terminated(a[1..]), Terminated(b));
    }
  }

  /** The printed lines are the front, and then the folder section and what follows. */
  lemma LinesFall(c: Contents, l: Layout, f: FolderTable.Wording, requests: seq<(string, string)>, w: Wording)
    ensures FullLines(c, l, f, requests, w)
         == Front(c, w) + (FolderTable.SectionLines(l, f, FoldersHeading(), w.foldersIntro) + AfterFolders(requests, w))
  {
    var p, q := AsProse(l, f, requests, w), Prose(w.preamble, w.propertiesIntro, w.hubsIntro, []);
    assert FullLines(c, l, f, requests, w) == RenderedLines(c, p) && p.rest == AfterHubs(l, f, requests, w);
    assert p.rest == FolderTable.SectionLines(l, f, FoldersHeading(), w.foldersIntro) + AfterFolders(requests, w);
    assert HubSection(c, p) == HubSection(c, q) by { hide NoHubsLine, HubLines; }
    assert KeepsProse(p, q);
    hide *;
    FrontIs(c, w);
    RenderedAs(c, p);
    RenderedAs(c, q);
    ProseParts(p, q);
    Behind(p.preamble, ["## Properties", ""] + (p.propertiesIntro + (PropertyLines(c.properties) + [""])),
           KindLines(c, NoteTypes), KindLines(c, Of(Status)), KindLines(c, Of(Domain)), KindLines(c, Of(SourceKind)),
           KindLines(c, Of(CaptureType)), HubSection(c, p), p.rest);
  }

  predicate KeepsProse(p: Prose, q: Prose) {
    p.preamble == q.preamble && p.propertiesIntro == q.propertiesIntro && q.rest == []
  }

  lemma ProseParts(p: Prose, q: Prose)
    requires KeepsProse(p, q)
    ensures p.preamble == q.preamble && p.propertiesIntro == q.propertiesIntro && q.rest == []
  {
  }

  lemma Behind(
    a: seq<string>, b: seq<string>, c: seq<string>, d: seq<string>, e: seq<string>, f: seq<string>, g: seq<string>,
    h: seq<string>, rest: seq<string>)
    ensures a + (b + (c + (d + (e + (f + (g + (h + rest))))))) == a + (b + (c + (d + (e + (f + (g + (h + []))))))) + rest
  {
    assert h + [] == h;
    assert g + (h + rest) == g + h + rest;
    assert f + (g + h + rest) == f + (g + h) + rest;
    assert e + (f + (g + h) + rest) == e + (f + (g + h)) + rest;
    assert d + (e + (f + (g + h)) + rest) == d + (e + (f + (g + h))) + rest;
    assert c + (d + (e + (f + (g + h))) + rest) == c + (d + (e + (f + (g + h)))) + rest;
    assert b + (c + (d + (e + (f + (g + h)))) + rest) == b + (c + (d + (e + (f + (g + h))))) + rest;
  }

  /** What is left of the tail once the blank lines at the end of the note are dropped. */
  function Kept(requests: seq<(string, string)>, w: Wording): seq<string> {
    DropBlanks(AfterFolders(requests, w))
  }

  lemma KeptShape(requests: seq<(string, string)>, w: Wording)
    ensures Kept(requests, w)
         == ([Dashboard.Heading()] + w.dashboardsIntro)
            + ([Dashboard.StartMarker()] + (RequestTable(requests) + ([Dashboard.EndMarker()] + DropBlanks([""] + w.rules))))
    ensures Kept(requests, w) != [] && Kept(requests, w)[0] == Dashboard.Heading()
  {
    var tail := [Dashboard.EndMarker()] + ([""] + w.rules);
    var front := [Dashboard.Heading()] + w.dashboardsIntro;
    var table := [Dashboard.StartMarker()] + RequestTable(requests);
    assert AfterFolders(requests, w)
        == [Dashboard.Heading()] + (w.dashboardsIntro + ([Dashboard.StartMarker()] + (RequestTable(requests) + tail)));
    assert Kept(requests, w) == DropBlanks(AfterFolders(requests, w));
    Dashboard.MarkersDiffer();
    hide *;
    Pieces([Dashboard.Heading()], w.dashboardsIntro, [Dashboard.StartMarker()], RequestTable(requests), tail);
    DropBlanksBehind(Dashboard.EndMarker(), [""] + w.rules);
    DropBlanksConcat(front + table, tail);
    Pieces([Dashboard.Heading()], w.dashboardsIntro, [Dashboard.StartMarker()], RequestTable(requests),
      [Dashboard.EndMarker()] + DropBlanks([""] + w.rules));
  }

  lemma Pieces(a: seq<string>, b: seq<string>, c: seq<string>, d: seq<string>, e: seq<string>)
    ensures a + (b + (c + (d + e))) == (a + b) + (c + d) + e
    ensures (a + b) + (c + d) + e == (a + b) + (c + (d + e))
  {
    assert c + (d + e) == c + d + e;
    assert b + (c + d + e) == b + (c + d) + e;
  }

  lemma FullLinesOk(c: Contents, l: Layout, f: FolderTable.Wording, requests: seq<(string, string)>, w: Wording)
    requires ContentsOk(c) && RowsOneLine(l, f) && RequestsOk(requests) && WordingOk(w)
    ensures LinesOk(FullLines(c, l, f, requests, w))
    ensures DropBlanks(FullLines(c, l, f, requests, w))
         == Front(c, w) + (FolderTable.SectionLines(l, f, FoldersHeading(), w.foldersIntro) + Kept(requests, w))
    ensures DropBlanks(FullLines(c, l, f, requests, w)) != []
  {
    assert FullLines(c, l, f, requests, w) == RenderedLines(c, AsProse(l, f, requests, w));
    assert Kept(requests, w) == DropBlanks(AfterFolders(requests, w));
    hide *;
    ProseReady(l, f, requests, w);
    RenderedLinesOk(c, AsProse(l, f, requests, w));
    LinesFall(c, l, f, requests, w);
    KeptShape(requests, w);
    var section := FolderTable.SectionLines(l, f, FoldersHeading(), w.foldersIntro);
    DropBlanksConcat(section, AfterFolders(requests, w));
    DropBlanksConcat(Front(c, w), section + AfterFolders(requests, w));
  }

  lemma FullTextIs(c: Contents, l: Layout, f: FolderTable.Wording, requests: seq<(string, string)>, w: Wording)
    ensures FullText(c, l, f, requests, w) == NoteText(FullLines(c, l, f, requests, w))
    ensures FullLines(c, l, f, requests, w) == RenderedLines(c, AsProse(l, f, requests, w))
  {
    hide NoteText, RenderedLines, AsProse;
  }

  lemma CheckedIs(text: string, section: string -> string)
    ensures Dashboard.Checked(text, section) == Dashboard.Ticks(SplitLines(Dashboard.Region(text, section)))
  {
    hide Dashboard.Ticks, SplitLines, Dashboard.Region;
  }

  lemma FoldersAbsent(lines: seq<string>)
    requires NoFolders(lines)
    ensures forall i | 0 <= i < |lines| :: !FolderTable.IsFoldersLine(lines[i])
  {
    hide FolderTable.IsFoldersLine;
  }

  // ---- reading the text back ----

  /** The folder table of the printed note asks for exactly the layout that was printed. */
  lemma FoldersOfText(c: Contents, l: Layout, f: FolderTable.Wording, requests: seq<(string, string)>, w: Wording, base: Layout)
    requires ContentsOk(c) && LayoutOk(l, f) && RequestsOk(requests) && WordingOk(w)
    ensures var t := FolderTable.TakeRows(FolderTable.NO_TABLE, FolderTable.FolderRegion(SplitLines(FullText(c, l, f, requests, w))));
            t == FolderTable.TableOf(l) && Acceptable(FolderTable.ToConfig(t, base)) && AsLayout(FolderTable.ToConfig(t, base)) == l
  {
    hide *;
    LayoutParts(l, f);
    FullTextIs(c, l, f, requests, w);
    FrontNoFolders(c, w);
    FoldersAbsent(Front(c, w));
    FullLinesOk(c, l, f, requests, w);
    TextLines(FullLines(c, l, f, requests, w));
    TitlesForeign();
    KeptShape(requests, w);
    WordingLines(w);
    FolderTable.FoldersReadBack(l, f, base, Front(c, w), FoldersHeading(), w.foldersIntro, Kept(requests, w));
  }

  lemma LayoutParts(l: Layout, f: FolderTable.Wording)
    requires LayoutOk(l, f)
    ensures ValidLayout(l) && FolderTable.Unprotected(l) && FolderTable.Printable(l) && FolderTable.WordingOk(f) && RowsOneLine(l, f)
  {
    hide ValidLayout, FolderTable.Unprotected, FolderTable.Printable, FolderTable.WordingOk, RowsOneLine;
  }

  lemma UnmarkedConcat(a: seq<string>, b: seq<string>)
    requires Unmarked(a) && Unmarked(b)
    ensures Unmarked(a + b)
  {
    hide Dashboard.MarkerFree;
  }

  lemma UnmarkedText(lines: seq<string>)
    requires Unmarked(lines)
    ensures Dashboard.MarkerFree(Terminated(lines)) && Dashboard.MarkerFree("\n" + Terminated(lines))
  {
    Dashboard.FreeLines(lines);
    Dashboard.NoMarkers();
    hide Dashboard.MarkerFree;
    Dashboard.FreeAside("", '\n', Terminated(lines));
    assert "" + (['\n'] + Terminated(lines)) == "\n" + Terminated(lines);
  }

  lemma HeadingUnmarked()
    ensures Unmarked([Dashboard.Heading()])
  {
    Dashboard.FreeOf(Dashboard.Heading());
  }

  lemma TableUnmarked(requests: seq<(string, string)>)
    requires RequestsOk(requests)
    ensures Unmarked(RequestTable(requests)) && LinesOk(RequestTable(requests))
    ensures forall i | 0 <= i < |RequestTable(requests)| :: Dashboard.Request(RequestTable(requests)[i]).None?
  {
    RequestTableOk(requests);
    hide Dashboard.MarkerFree, RequestTable, Dashboard.Request, LineRun;
  }

  lemma {:induction false} NoTicks(lines: seq<string>)
    requires forall i | 0 <= i < |lines| :: Dashboard.Request(lines[i]).None?
    ensures Dashboard.Ticks(lines) == {}
  {
    hide Dashboard.Request;
    if lines != [] { NoTicks(lines[..|lines| - 1]); }
  }

  /** What stands between the markers ticks nothing. */
  lemma TableTicksNothing(requests: seq<(string, string)>)
    requires RequestsOk(requests)
    ensures Dashboard.Ticks(SplitLines("\n" + Terminated(RequestTable(requests)))) == {}
  {
    hide *;
    var table := RequestTable(requests);
    TableUnmarked(requests);
    Dashboard.EmptyLine();
    NothingLeft();
    LinesOfTerminated(table, "");
    assert Terminated(table) + "" == Terminated(table) && table + [] == table;
    LineThenRest("", Terminated(table));
    assert "" + ("\n" + Terminated(table)) == "\n" + Terminated(table);
    Dashboard.NothingRequested();
    assert forall i | 0 <= i < |[""] + table| :: ([""] + table)[i] == "" || (i > 0 && ([""] + table)[i] == table[i - 1]);
    NoTicks([""] + table);
  }

  /** The text around the markers. */
  lemma MarkedText(before: seq<string>, table: seq<string>, after: seq<string>)
    ensures Terminated(before + ([Dashboard.StartMarker()] + (table + ([Dashboard.EndMarker()] + after))))
         == Terminated(before) + (Dashboard.StartMarker() + (("\n" + Terminated(table)) + (Dashboard.EndMarker() + ("\n" + Terminated(after)))))
  {
    hide *;
    var s, e := Dashboard.StartMarker(), Dashboard.EndMarker();
    TerminatedConcat(before, [s] + (table + ([e] + after)));
    TerminatedOne(s, table + ([e] + after));
    TerminatedConcat(table, [e] + after);
    TerminatedOne(e, after);
    assert "\n" + (Terminated(table) + (e + ("\n" + Terminated(after)))) == ("\n" + Terminated(table)) + (e + ("\n" + Terminated(after)));
  }

  lemma TerminatedOne(line: string, rest: seq<string>)
    ensures Terminated([line] + rest) == line + ("\n" + Terminated(rest))
  {
    assert ([line] + rest)[1..] == rest;
  }

  lemma MarksParts(c: Contents, l: Layout, f: FolderTable.Wording, w: Wording)
    requires MarksApart(c, l, f, w)
    ensures Unmarked(Front(c, w)) && Unmarked(FolderTable.SectionLines(l, f, FoldersHeading(), w.foldersIntro)) && Unmarked(w.dashboardsIntro)
  {
    hide Unmarked;
  }

  /** Whatever requests the schema stores, the printed note ticks none of them. */
  lemma RequestsOfText(
    c: Contents, l: Layout, f: FolderTable.Wording, requests: seq<(string, string)>, w: Wording, section: string -> string)
    requires ContentsOk(c) && LayoutOk(l, f) && RequestsOk(requests) && WordingOk(w) && MarksApart(c, l, f, w)
    ensures Dashboard.Checked(FullText(c, l, f, requests, w), section) == {}
  {
    hide *;
    FullTextIs(c, l, f, requests, w);
    CheckedIs(FullText(c, l, f, requests, w), section);
    LayoutParts(l, f);
    FullLinesOk(c, l, f, requests, w);
    NoteTextIs(FullLines(c, l, f, requests, w));
    KeptShape(requests, w);
    var folders := FolderTable.SectionLines(l, f, FoldersHeading(), w.foldersIntro);
    var front := [Dashboard.Heading()] + w.dashboardsIntro;
    var before := Front(c, w) + (folders + front);
    var table, after := RequestTable(requests), DropBlanks([""] + w.rules);
    Inside(Front(c, w), folders, front, [Dashboard.StartMarker()] + (table + ([Dashboard.EndMarker()] + after)));
    MarkedText(before, table, after);
    MarksParts(c, l, f, w);
    HeadingUnmarked();
    UnmarkedConcat([Dashboard.Heading()], w.dashboardsIntro);
    UnmarkedConcat(folders, front);
    UnmarkedConcat(Front(c, w), folders + front);
    UnmarkedText(before);
    TableUnmarked(requests);
    UnmarkedText(table);
    Dashboard.RegionFound(Terminated(before), "\n" + Terminated(table), "\n" + Terminated(after), section);
    TableTicksNothing(requests);
  }

  lemma Inside(a: seq<string>, b: seq<string>, c: seq<string>, d: seq<string>)
    ensures a + (b + (c + d)) == a + (b + c) + d
  {
    assert b + (c + d) == b + c + d;
  }

  /** The round trip of the whole note: one text, read by its three parsers, gives back exactly the
      properties with their types, the values, the hubs by domain and every definition, stripped; exactly
      the layout, through `build_paths`; and no dashboard request at all. */
  lemma FullRoundTrip(
    c: Contents, l: Layout, f: FolderTable.Wording, requests: seq<(string, string)>, w: Wording, base: Layout,
    section: string -> string)
    requires ContentsOk(c) && LayoutOk(l, f) && RequestsOk(requests) && WordingOk(w) && MarksApart(c, l, f, w)
    ensures var text := FullText(c, l, f, requests, w);
            var r := TakeLines(EMPTY, SplitLines(text));
            var t := FolderTable.TakeRows(FolderTable.NO_TABLE, FolderTable.FolderRegion(SplitLines(text)));
            && r.properties == StrippedProperties(c.properties)
            && (forall k: Kind :: r.Read(k) == Stripped(c.values(k)))
            && r.hubs == HubsTo(c.hubs, |c.hubs|)
            && Acceptable(FolderTable.ToConfig(t, base)) && AsLayout(FolderTable.ToConfig(t, base)) == l
            && Dashboard.Checked(text, section) == {}
  {
    hide *;
    FullTextIs(c, l, f, requests, w);
    LayoutParts(l, f);
    ProseReady(l, f, requests, w);
    NoteReadsBack(c, AsProse(l, f, requests, w));
    FoldersOfText(c, l, f, requests, w, base);
    RequestsOfText(c, l, f, requests, w, section);
  }

  // ---- syncing the unedited note ----

  /** What a sync takes from a text: the values and hubs, and the ticked requests. */
  ghost predicate ParsesTo(text: string, section: string -> string, n: Parsed) {
    && n == ParsedFrom(TakeLines(EMPTY, SplitLines(text)), n.dashboards)
    && forall p :: p in n.dashboards <==> p in Dashboard.Checked(text, section)
  }

  lemma ParsesParts(text: string, section: string -> string, n: Parsed)
    requires ParsesTo(text, section, n)
    ensures n == ParsedFrom(TakeLines(EMPTY, SplitLines(text)), n.dashboards)
    ensures forall p :: p in n.dashboards <==> p in Dashboard.Checked(text, section)
  {
    hide TakeLines, SplitLines, ParsedFrom, Dashboard.Checked;
  }

  /** Syncing the unedited note of a schema proposes no folder change, reports nothing in any section of
      values, hubs and properties, and reports no change at all if and only if the schema stores no
      dashboard request: stored requests are printed unticked, so the sync takes every one of them for
      withdrawn and forgets it. */
  lemma OwnNoteUnchangedIff(
    b: Builtins, lists: set<string>, s: Schema, l: Layout, f: FolderTable.Wording, w: Wording, section: string -> string,
    entries: seq<Entry>, n: Parsed)
    requires ContentsOk(ContentsOf(b, lists, s)) && HubsFiled(s.hubs, Current(b.values(Domain), s.Stored(Domain)))
    requires LayoutOk(l, f) && RequestsOk(s.dashboards) && WordingOk(w) && MarksApart(ContentsOf(b, lists, s), l, f, w)
    requires ParsesTo(FullText(ContentsOf(b, lists, s), l, f, s.dashboards, w), section, n)
    ensures var text := FullText(ContentsOf(b, lists, s), l, f, s.dashboards, w);
            var t := FolderTable.TakeRows(FolderTable.NO_TABLE, FolderTable.FolderRegion(SplitLines(text)));
            Acceptable(FolderTable.ToConfig(t, l)) && FolderTable.SameLayout(AsLayout(FolderTable.ToConfig(t, l)), l)
    ensures n.dashboards == [] && Echoes(b, lists, s, n)
    ensures Changed(b, s, n, entries) <==> s.dashboards != []
  {
    var text := FullText(ContentsOf(b, lists, s), l, f, s.dashboards, w);
    var r := TakeLines(EMPTY, SplitLines(text));
    hide *;
    ParsesParts(text, section, n);
    FullRoundTrip(ContentsOf(b, lists, s), l, f, s.dashboards, w, l, section);
    ReadEchoes(b, lists, s, r, n.dashboards);
    EchoReportsNothing(b, lists, s, n, entries);
    NoneTicked(s.dashboards, n.dashboards);
    SelfSame(l);
  }

  lemma SomeMember(s: seq<(string, string)>)
    requires s != []
    ensures exists p :: p in s
  {
    assert s[0] in s;
  }

  lemma NoneTicked(before: seq<(string, string)>, after: seq<(string, string)>)
    requires forall p :: p !in after
    ensures after == [] && (DashboardsChanged(before, after) <==> before != [])
  {
    if after != [] { SomeMember(after); }
    if before != [] { assert before[0] in before; }
  }

  lemma SelfSame(l: Layout)
    ensures FolderTable.SameLayout(l, l)
  {
  }

  /** When no request is stored, the schema such a sync computes means the same as the one it started from. */
  lemma OwnNoteMeansTheSame(b: Builtins, lists: set<string>, s: Schema, text: string, section: string -> string,
                            entries: seq<Entry>, n: Parsed)
    requires BuiltinsOk(b) && (forall name | name in b.types.specs :: name in b.types.builtin)
    requires ContentsOk(ContentsOf(b, lists, s)) && HubsFiled(s.hubs, Current(b.values(Domain), s.Stored(Domain)))
    requires forall v | v in s.properties.names && v in lists :: v in s.properties.lists
    requires ParsesTo(text, section, n) && Echoes(b, lists, s, n) && !Changed(b, s, n, entries)
    ensures SameMeaning(b, s, Sync(b, s, n, entries))
  {
    hide *;
    ParsesParts(text, section, n);
    AnyNoteParsed(text, n.dashboards);
    EchoIsNotSilent(b, lists, s, n);
    UnreportedSyncIff(b, s, n, entries);
  }
}
