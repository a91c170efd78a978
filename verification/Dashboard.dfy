/** The dashboard table of the schema note (`dashboard_table.py`, `schema_note.py`): refreshing the rows
    from the vault without touching the user's ticks. */
module Dashboard {
  import opened Text
  import opened NoteBody
  import opened MarkdownTable
  import Frontmatter

  function StartMarker(): string { "<!-- pi-vault:dashboards:start -->" }

  function EndMarker(): string { "<!-- pi-vault:dashboards:end -->" }

  function TableHeader(): string { RowOf(["Build", "Property", "Value", "Notes"]) }

  function TableDivider(): string { RowOf(["---", "---", "---", "---"]) }

  /** A property and one of its values: what a row of the table stands for. */
  type Pair = (string, string)

  /** A candidate row, with the number of notes that have the value. */
  datatype Row = Row(pair: Pair, count: nat)

  // ---- reading the ticks ----

  predicate Ticked(build: string) {
    LowerAscii(build) in {"x", "\U{2713}", "\U{2714}", "[x]", "yes", "true"}
  }

  /** A header or divider cell. */
  predicate Scaffold(property: string) {
    LowerAscii(property) == "property" || (property != "" && forall i | 0 <= i < |property| :: property[i] == '-' || property[i] == ':')
  }

  /** The pair a line ticks, if it is a ticked row. */
  function Request(line: string): Option<Pair> {
    match Cells(line)
    case None => None
    case Some(cells) =>
      if |cells| < 3 || Scaffold(cells[1]) || !Ticked(cells[0]) || cells[1] == "" || cells[2] == "" then None
      else Some((cells[1], cells[2]))
  }

  /** The set of pairs ticked in some lines. */
  function Ticks(lines: seq<string>): set<Pair> {
    if lines == [] then {}
    else Ticks(lines[..|lines| - 1]) + (match Request(lines[|lines| - 1]) case None => {} case Some(p) => {p})
  }

  /** `dashboards_region`; `section` stands for the text under the heading when the markers are gone. */
  function Region(text: string, section: string -> string): string {
    var start, end := Find(text, StartMarker(), 0), Find(text, EndMarker(), 0);
    if start != -1 && end != -1 && end > start then
      // a slice that ends before it starts is empty
      if start + |StartMarker()| <= end then text[start + |StartMarker()|..end] else ""
    else section(text)
  }

  /** The pairs `parse_dashboard_requests` returns, as a set. */
  function Checked(text: string, section: string -> string): set<Pair> {
    Ticks(SplitLines(Region(text, section)))
  }

  /** `parse_dashboard_requests`: each ticked pair once, in order. */
  method ParseRequests(text: string, section: string -> string) returns (requests: seq<Pair>)
    ensures (set p | p in requests) == Checked(text, section)
    ensures forall i, j | 0 <= i < j < |requests| :: requests[i] != requests[j]
  {
    requests := [];
    var lines := SplitLines(Region(text, section));
    hide SplitLines, Region, Request;
    for k := 0 to |lines|
      invariant (set p | p in requests) == Ticks(lines[..k])
      invariant forall i, j | 0 <= i < j < |requests| :: requests[i] != requests[j]
    {
      assert lines[..k + 1][..k] == lines[..k];
      var request := Request(lines[k]);
      if request.Some? && request.value !in requests {
        assert (set p | p in requests + [request.value]) == (set p | p in requests) + {request.value};
        requests := requests + [request.value];
      }
    }
    assert lines[..|lines|] == lines;
  }

  // ---- printing the table ----

  /** `render_dashboard_table`, one row. */
  function RowLine(r: Row, checked: set<Pair>): string {
    RowOf([if r.pair in checked then "x" else " ", r.pair.0, r.pair.1, Decimal(r.count)])
  }

  function RowLines(rows: seq<Row>, checked: set<Pair>): (lines: seq<string>)
    ensures |lines| == |rows| && forall i | 0 <= i < |rows| :: lines[i] == RowLine(rows[i], checked)
  {
    seq(|rows|, i requires 0 <= i < |rows| => RowLine(rows[i], checked))
  }

  /** What stands between the markers. */
  function TableText(rows: seq<Row>, checked: set<Pair>): string {
    "\n" + Terminated([TableHeader(), TableDivider()] + RowLines(rows, checked))
  }

  function Block(rows: seq<Row>, checked: set<Pair>): string {
    StartMarker() + (TableText(rows, checked) + EndMarker())
  }

  /** `_splice`. */
  function Splice(text: string, block: string): string {
    var start, end := Find(text, StartMarker(), 0), Find(text, EndMarker(), 0);
    if start != -1 && end != -1 && end > start then text[..start] + (block + text[end + |EndMarker()|..])
    else Appended(text) + (block + "\n")
  }

  function Heading(): string { "## Dashboards" }

  function Appended(text: string): string {
    text + ((if text != "" && text[|text| - 1] == '\n' then "" else "\n") + ("\n" + (Heading() + "\n\n")))
  }

  // ---- what the user's note must look like ----

  predicate MarkerFree(s: string) {
    !Occurs(s, StartMarker()) && !Occurs(s, EndMarker())
  }

  /** The markers are both absent, or both there with the start first. */
  predicate MarkersInOrder(text: string) {
    var start, end := Find(text, StartMarker(), 0), Find(text, EndMarker(), 0);
    (start == -1 && end == -1) || (start != -1 && start < end)
  }

  /** A pair that can be printed in one row. */
  predicate Plain(p: Pair) {
    && LineRun(p.0) == |p.0| && LineRun(p.1) == |p.1| && MarkerFree(p.0) && MarkerFree(p.1)
  }

  // ---- markers ----

  lemma StartUnbordered()
    ensures Unbordered(StartMarker()) && '|' !in StartMarker() && '\n' !in StartMarker()
  {
  }

  lemma EndUnbordered()
    ensures Unbordered(EndMarker()) && '|' !in EndMarker() && '\n' !in EndMarker()
  {
  }

  lemma MarkersDiffer()
    ensures |EndMarker()| < |StartMarker()| && StartMarker()[..|EndMarker()|] != EndMarker()
    ensures StartMarker()[0] == '<' && EndMarker()[0] == '<'
    ensures StartMarker()[|StartMarker()| - 1] == '>' && EndMarker()[|EndMarker()| - 1] == '>'
  {
    assert StartMarker()[25] == 's' && EndMarker()[25] == 'e' && StartMarker()[..|EndMarker()|][25] == 's';
  }

  lemma MarkerShape()
    ensures StartMarker()[0] == '<' && EndMarker()[0] == '<' && |EndMarker()| < |StartMarker()|
    ensures Unbordered(StartMarker()) && Unbordered(EndMarker())
    ensures StartMarker()[..|EndMarker()|] != EndMarker()
    ensures StartMarker()[|StartMarker()| - 1] == '>' && EndMarker()[|EndMarker()| - 1] == '>'
    ensures '|' !in StartMarker() && '|' !in EndMarker() && '\n' !in StartMarker() && '\n' !in EndMarker()
  {
    hide *;
    StartUnbordered();
    EndUnbordered();
    MarkersDiffer();
  }

  lemma CharInside(s: string, needle: string, i: nat, k: nat)
    requires OccursAt(s, needle, i) && i <= k < i + |needle|
    ensures s[k] in needle
  {
    assert s[i..i + |needle|][k - i] == s[k];
  }

  /** A needle cannot reach across a character it does not contain. */
  lemma OccursAside(a: string, c: char, b: string, needle: string)
    requires c !in needle && Occurs(a + ([c] + b), needle)
    ensures Occurs(a, needle) || Occurs(b, needle)
  {
    var s := a + ([c] + b);
    var i :| 0 <= i <= |s| && OccursAt(s, needle, i);
    if i + |needle| <= |a| {
      assert a[i..i + |needle|] == s[i..i + |needle|];
      assert OccursAt(a, needle, i);
    } else if i > |a| {
      assert b[i - |a| - 1..i - |a| - 1 + |needle|] == s[i..i + |needle|];
      assert OccursAt(b, needle, i - |a| - 1);
    } else {
      CharInside(s, needle, i, |a|);
    }
  }

  lemma NoMarkers()
    ensures MarkerFree("")
  {
  }

  /** Texts without markers, joined by a character that no marker has. */
  lemma FreeAside(a: string, c: char, b: string)
    requires MarkerFree(a) && MarkerFree(b) && c !in StartMarker() && c !in EndMarker()
    ensures MarkerFree(a + ([c] + b))
  {
    hide Occurs, StartMarker, EndMarker;
    if Occurs(a + ([c] + b), StartMarker()) { OccursAside(a, c, b, StartMarker()); }
    if Occurs(a + ([c] + b), EndMarker()) { OccursAside(a, c, b, EndMarker()); }
  }

  /** Spaces around a cell add no marker: markers neither begin nor end with a space. */
  lemma OccursPadded(s: string, needle: string)
    requires needle != "" && needle[0] != ' ' && needle[|needle| - 1] != ' ' && Occurs(Pad(s), needle)
    ensures Occurs(s, needle)
  {
    var t := Pad(s);
    var i :| 0 <= i <= |t| && OccursAt(t, needle, i);
    assert t[i..i + |needle|][0] == t[i] && t[i..i + |needle|][|needle| - 1] == t[i + |needle| - 1];
    assert s[i - 1..i - 1 + |needle|] == t[i..i + |needle|];
    assert OccursAt(s, needle, i - 1);
  }

  lemma FreePadded(s: string)
    requires MarkerFree(s)
    ensures MarkerFree(Pad(s))
  {
    MarkerShape();
    hide Occurs, StartMarker, EndMarker, Pad;
    if Occurs(Pad(s), StartMarker()) { OccursPadded(s, StartMarker()); }
    if Occurs(Pad(s), EndMarker()) { OccursPadded(s, EndMarker()); }
  }

  lemma {:induction false} FreeInner(cells: seq<string>)
    requires cells != [] && forall i | 0 <= i < |cells| :: MarkerFree(cells[i])
    ensures MarkerFree(Inner(cells))
  {
    MarkerShape();
    hide MarkerFree, StartMarker, EndMarker, Pad;
    FreePadded(cells[0]);
    if |cells| > 1 {
      FreeInner(cells[1..]);
      FreeAside(Pad(cells[0]), '|', Inner(cells[1..]));
    }
  }

  lemma FreeRow(cells: seq<string>)
    requires cells != [] && forall i | 0 <= i < |cells| :: MarkerFree(cells[i])
    ensures MarkerFree(RowOf(cells))
  {
    MarkerShape();
    NoMarkers();
    hide MarkerFree, StartMarker, EndMarker, Inner;
    FreeInner(cells);
    FreeAside(Inner(cells), '|', "");
    assert Inner(cells) + (['|'] + "") == Inner(cells) + "|";
    FreeAside("", '|', Inner(cells) + "|");
    assert "" + (['|'] + (Inner(cells) + "|")) == RowOf(cells);
  }

  lemma {:induction false} FreeLines(lines: seq<string>)
    requires forall i | 0 <= i < |lines| :: MarkerFree(lines[i])
    ensures MarkerFree(Terminated(lines))
  {
    MarkerShape();
    NoMarkers();
    hide MarkerFree, StartMarker, EndMarker;
    if lines != [] {
      FreeLines(lines[1..]);
      FreeAside(lines[0], '\n', Terminated(lines[1..]));
      assert ['\n'] == "\n";
    }
  }

  /** A text without the character markers begin with has no marker. */
  lemma FreeOf(s: string)
    requires '<' !in s
    ensures MarkerFree(s)
  {
    MarkerShape();
    forall i | 0 <= i <= |s| ensures !OccursAt(s, StartMarker(), i) && !OccursAt(s, EndMarker(), i) {
      if i + |StartMarker()| <= |s| { assert s[i..i + |StartMarker()|][0] == s[i]; }
      if i + |EndMarker()| <= |s| { assert s[i..i + |EndMarker()|][0] == s[i]; }
    }
  }

  /** Where the markers of a refreshed note are: text before them, the table, and anything after. */
  lemma Inward(a: string, b: string, c: string, d: string)
    ensures a + (b + (c + d)) == a + (b + c) + d
  {
  }

  lemma MarkersFound(before: string, table: string, after: string)
    requires MarkerFree(before) && MarkerFree(table)
    ensures var text := before + (StartMarker() + (table + (EndMarker() + after)));
            Find(text, StartMarker(), 0) == |before|
            && Find(text, EndMarker(), 0) == |before| + |StartMarker()| + |table|
  {
    MarkerShape();
    EndNotBefore(before, table);
    assert !Occurs(before, StartMarker());
    hide *;
    FirstMarker(before, StartMarker(), table + (EndMarker() + after));
    FirstMarker(before + (StartMarker() + table), EndMarker(), after);
    Inward(before, StartMarker(), table, EndMarker() + after);
  }

  lemma EndNotBefore(before: string, table: string)
    requires MarkerFree(before) && MarkerFree(table)
    ensures !Occurs(before + (StartMarker() + table), EndMarker())
  {
    MarkerShape();
    var s := before + (StartMarker() + table);
    forall i | 0 <= i <= |s| ensures !OccursAt(s, EndMarker(), i) {
      EndNotAt(before, table, i);
    }
  }

  /** An end marker inside `before`, at or inside the start marker, or inside the table. */
  lemma EndNotAt(before: string, table: string, i: nat)
    requires MarkerFree(before) && MarkerFree(table)
    ensures !OccursAt(before + (StartMarker() + table), EndMarker(), i)
  {
    MarkerShape();
    var s := before + (StartMarker() + table);
    var m, n := |StartMarker()|, |EndMarker()|;
    if i + n <= |before| {
      assert s[i..i + n] == before[i..i + n] && !OccursAt(before, EndMarker(), i);
    } else if i + n <= |s| {
      if i < |before| {
        assert s[i..i + n][|before| - i] == s[|before|] == '<';
      } else if i == |before| {
        assert s[i..i + n] == StartMarker()[..n];
      } else if i < |before| + m {
        assert s[i..i + n][0] == s[i] == StartMarker()[i - |before|];
      } else {
        assert s[i..i + n] == table[i - |before| - m..i - |before| - m + n];
        assert !OccursAt(table, EndMarker(), i - |before| - m);
      }
    }
  }

  // ---- the table read back ----

  /** What the parser guarantees of a ticked pair. */
  predicate Readable(p: Pair) {
    p.0 != "" && p.1 != "" && Clean(p.0) && Clean(p.1) && !Scaffold(p.0)
  }

  lemma RequestReadable(line: string)
    ensures Request(line).Some? ==> Readable(Request(line).value)
  {
    hide Cells, Clean, Scaffold, Ticked;
    CellsClean(line);
  }

  lemma {:induction false} TicksReadable(lines: seq<string>)
    ensures forall p | p in Ticks(lines) :: Readable(p)
  {
    hide Readable, Request;
    if lines != [] {
      TicksReadable(lines[..|lines| - 1]);
      RequestReadable(lines[|lines| - 1]);
    }
  }

  lemma DecimalClean(n: nat)
    ensures Clean(Decimal(n)) && LineRun(Decimal(n)) == |Decimal(n)| && MarkerFree(Decimal(n))
  {
    var s := Decimal(n);
    assert forall i | 0 <= i < |s| :: !IsBreak(s[i]) && !IsSpace(s[i]);
    hide IsBreak, IsSpace, Decimal;
    LineRunIs(s, |s|);
    FreeOf(s);
  }

  lemma MarksClean()
    ensures Clean("x") && Ticked("x") && !Ticked("") && '|' !in " " && Strip(Pad(" ")) == ""
  {
    BlankPad();
    hide Strip, Pad;
    assert LowerAscii("x") == "x" && LowerAscii("") == "";
  }

  /** A printed row is read as a tick exactly when its pair is checked. */
  lemma RowRequest(r: Row, checked: set<Pair>)
    requires r.pair in checked ==> Readable(r.pair)
    ensures Request(RowLine(r, checked)) == if r.pair in checked then Some(r.pair) else None
  {
    MarksClean();
    DecimalClean(r.count);
    hide Cells, Clean, Scaffold, Ticked, MarkerFree, Decimal, RowOf, LineRun, Strip, Pad;
    if r.pair in checked {
      var cells := ["x", r.pair.0, r.pair.1, Decimal(r.count)];
      RowReadsBack(cells);
    } else {
      FirstCell([" ", r.pair.0, r.pair.1, Decimal(r.count)]);
    }
  }

  /** The header and the divider tick nothing, stay on one line and hold no marker. */
  lemma ScaffoldRows()
    ensures Request(TableHeader()).None? && Request(TableDivider()).None? && Request("").None?
    ensures LineRun(TableHeader()) == |TableHeader()| && LineRun(TableDivider()) == |TableDivider()|
    ensures MarkerFree(TableHeader()) && MarkerFree(TableDivider())
  {
    hide RowOf, Request, LineRun, MarkerFree;
    NothingRequested();
    PlainHeader();
    PlainDivider();
  }

  lemma NothingRequested()
    ensures Request("").None?
  {
    assert Strip("") == "";
  }

  lemma PlainHeader()
    ensures var line := TableHeader(); Request(line).None? && LineRun(line) == |line| && MarkerFree(line)
  {
    hide RowOf, Request, LineRun, MarkerFree;
    assert LowerAscii("Build")[0] == 'b';
    PlainRow(["Build", "Property", "Value", "Notes"]);
  }

  lemma PlainDivider()
    ensures var line := TableDivider(); Request(line).None? && LineRun(line) == |line| && MarkerFree(line)
  {
    hide RowOf, Request, LineRun, MarkerFree;
    assert LowerAscii("---")[0] == '-';
    PlainRow(["---", "---", "---", "---"]);
  }

  /** A row of letters and dashes only. */
  lemma PlainRow(cells: seq<string>)
    requires |cells| >= 2 && (forall i, j | 0 <= i < |cells| && 0 <= j < |cells[i]| :: '-' <= cells[i][j] <= 'z' && cells[i][j] != '<')
    requires cells[0] != "" && (LowerAscii(cells[0])[0] == 'b' || LowerAscii(cells[0])[0] == '-')
    ensures Request(RowOf(cells)).None? && LineRun(RowOf(cells)) == |RowOf(cells)| && MarkerFree(RowOf(cells))
  {
    forall i | 0 <= i < |cells| ensures LineRun(cells[i]) == |cells[i]| && MarkerFree(cells[i]) {
      LineRunIs(cells[i], |cells[i]|);
      FreeOf(cells[i]);
    }
    var first := cells[0];
    assert !IsSpace(first[0]) && !IsSpace(first[|first| - 1]) && '|' !in first;
    PadStrips(first);
    hide RowOf, Cells, Strip, Pad, LineRun, MarkerFree, IsSpace;
    UnbrokenRow(cells);
    FreeRow(cells);
    FirstCell(cells);
    NotTicked(first);
  }

  lemma NotTicked(s: string)
    requires s != "" && (LowerAscii(s)[0] == 'b' || LowerAscii(s)[0] == '-')
    ensures !Ticked(s)
  {
  }

  lemma {:induction false} TicksConcat(a: seq<string>, b: seq<string>)
    ensures Ticks(a + b) == Ticks(a) + Ticks(b)
  {
    hide Request;
    if b == [] {
      assert a + b == a;
    } else {
      assert (a + b)[..|a + b| - 1] == a + b[..|b| - 1];
      TicksConcat(a, b[..|b| - 1]);
    }
  }

  lemma {:induction false} TicksOfRows(rows: seq<Row>, checked: set<Pair>)
    requires forall p | p in checked :: Readable(p)
    ensures Ticks(RowLines(rows, checked)) == set r | r in rows && r.pair in checked :: r.pair
  {
    hide Request, RowLine, Readable;
    if rows != [] {
      var m, last := rows[..|rows| - 1], rows[|rows| - 1];
      TicksOfRows(m, checked);
      assert RowLines(rows, checked)[..|rows| - 1] == RowLines(m, checked);
      RowRequest(last, checked);
      assert rows == m + [last];
    }
  }

  /** The lines of the printed table. */
  lemma LinesOfTable(rows: seq<Row>, checked: set<Pair>)
    requires LinesOk(RowLines(rows, checked))
    ensures SplitLines(TableText(rows, checked)) == [""] + ([TableHeader(), TableDivider()] + RowLines(rows, checked))
  {
    ScaffoldRows();
    EmptyLine();
    NothingSplit();
    hide TableHeader, TableDivider, RowLines, SplitLines, Request, MarkerFree, LineRun;
    var all := [TableHeader(), TableDivider()] + RowLines(rows, checked);
    LinesOfTerminated(all, "");
    assert Terminated(all) + "" == Terminated(all) && all + [] == all;
    LineThenRest("", Terminated(all));
    assert "" + ("\n" + Terminated(all)) == TableText(rows, checked);
  }

  /** The ticks of the printed table are exactly the checked pairs it has rows for. */
  lemma TicksOfTable(rows: seq<Row>, checked: set<Pair>)
    requires (forall p | p in checked :: Readable(p)) && LinesOk(RowLines(rows, checked))
    ensures Ticks(SplitLines(TableText(rows, checked))) == set r | r in rows && r.pair in checked :: r.pair
  {
    LinesOfTable(rows, checked);
    TicksOfRows(rows, checked);
    ScaffoldRows();
    hide *;
    TicksConcat([""], [TableHeader(), TableDivider()] + RowLines(rows, checked));
    TicksConcat([TableHeader(), TableDivider()], RowLines(rows, checked));
    HeadTicks(TableHeader(), TableDivider());
  }

  lemma NothingSplit()
    ensures SplitLines("") == []
  {
  }

  lemma EmptyLine()
    ensures LineRun("") == |""|
  {
  }

  lemma HeadTicks(a: string, b: string)
    requires Request(a).None? && Request(b).None? && Request("").None?
    ensures Ticks([a, b]) == {} && Ticks([""]) == {}
  {
    hide Request;
    NoTick("");
    NoTick(a);
    NoTick(b);
    TicksConcat([a], [b]);
    assert [a] + [b] == [a, b];
  }

  lemma NoTick(line: string)
    requires Request(line).None?
    ensures Ticks([line]) == {}
  {
    hide Request;
    assert [line][..0] == [];
  }

  // ---- the refresh ----

  /** The rows a refresh prints: every checked pair has one, and every pair can be printed. */
  ghost predicate RowsOk(rows: seq<Row>, checked: set<Pair>) {
    && (forall p | p in checked :: exists r :: r in rows && r.pair == p)
    && (forall i | 0 <= i < |rows| :: Plain(rows[i].pair))
  }

  lemma RowLineOk(r: Row, checked: set<Pair>)
    requires Plain(r.pair)
    ensures LineRun(RowLine(r, checked)) == |RowLine(r, checked)| && MarkerFree(RowLine(r, checked))
  {
    DecimalClean(r.count);
    MarksFree();
    hide Decimal, MarkerFree;
    var cells := [if r.pair in checked then "x" else " ", r.pair.0, r.pair.1, Decimal(r.count)];
    FreeRow(cells);
    UnbrokenRow(cells);
  }

  lemma MarksFree()
    ensures MarkerFree("x") && MarkerFree(" ") && LineRun("x") == 1 && LineRun(" ") == 1
  {
    FreeOf("x");
    FreeOf(" ");
    LineRunIs("x", 1);
    LineRunIs(" ", 1);
  }

  lemma UnbrokenConcat(a: string, b: string)
    requires LineRun(a) == |a| && LineRun(b) == |b|
    ensures LineRun(a + b) == |a + b|
  {
    hide IsBreak;
    LineRunShape(a);
    LineRunShape(b);
    hide LineRun;
    LineRunIs(a + b, |a + b|);
  }

  lemma {:induction false} UnbrokenInner(cells: seq<string>)
    requires cells != [] && forall i | 0 <= i < |cells| :: LineRun(cells[i]) == |cells[i]|
    ensures LineRun(Inner(cells)) == |Inner(cells)|
  {
    assert LineRun(" ") == 1 && LineRun("|") == 1 by { LineRunIs(" ", 1); LineRunIs("|", 1); }
    hide LineRun;
    UnbrokenConcat(cells[0], " ");
    UnbrokenConcat(" ", cells[0] + " ");
    if |cells| > 1 {
      UnbrokenInner(cells[1..]);
      UnbrokenConcat("|", Inner(cells[1..]));
      UnbrokenConcat(Pad(cells[0]), "|" + Inner(cells[1..]));
    }
  }

  lemma UnbrokenRow(cells: seq<string>)
    requires cells != [] && forall i | 0 <= i < |cells| :: LineRun(cells[i]) == |cells[i]|
    ensures LineRun(RowOf(cells)) == |RowOf(cells)|
  {
    assert LineRun("|") == 1 by { LineRunIs("|", 1); }
    hide LineRun, Inner;
    UnbrokenInner(cells);
    UnbrokenConcat(Inner(cells), "|");
    UnbrokenConcat("|", Inner(cells) + "|");
  }

  /** `refresh_dashboard_table`, given the rows for what was checked. */
  function Refreshed(text: string, rows: seq<Row>, checked: set<Pair>): string {
    Splice(text, Block(rows, checked))
  }

  /** The text in front of the table, and the text after it. */
  function Before(text: string): string {
    var start, end := Find(text, StartMarker(), 0), Find(text, EndMarker(), 0);
    if start != -1 && end != -1 && end > start then text[..start] else Appended(text)
  }

  function After(text: string): string {
    var start, end := Find(text, StartMarker(), 0), Find(text, EndMarker(), 0);
    if start != -1 && end != -1 && end > start then text[end + |EndMarker()|..] else "\n"
  }

  lemma RefreshedShape(text: string, rows: seq<Row>, checked: set<Pair>)
    ensures Refreshed(text, rows, checked)
         == Before(text) + (StartMarker() + (TableText(rows, checked) + (EndMarker() + After(text))))
  {
    hide StartMarker, EndMarker, TableText, Appended, Find;
    Regrouped(Before(text), StartMarker(), TableText(rows, checked), EndMarker(), After(text));
  }

  lemma Regrouped(a: string, b: string, c: string, d: string, e: string)
    ensures a + ((b + (c + d)) + e) == a + (b + (c + (d + e)))
  {
    assert (b + (c + d)) + e == b + (c + (d + e));
  }

  lemma FreeBefore(text: string)
    requires MarkersInOrder(text)
    ensures MarkerFree(Before(text))
  {
    var start, end := Find(text, StartMarker(), 0), Find(text, EndMarker(), 0);
    FindFirst(text, StartMarker(), 0);
    FindFirst(text, EndMarker(), 0);
    if start != -1 {
      forall i | 0 <= i <= start ensures !OccursAt(text[..start], StartMarker(), i) && !OccursAt(text[..start], EndMarker(), i) {
        FreePrefix(text, StartMarker(), start, i);
        FreePrefix(text, EndMarker(), start, i);
      }
    } else {
      AppendedFree(text);
    }
  }

  lemma FreePrefix(text: string, needle: string, n: nat, i: nat)
    requires n <= |text| && needle != "" && forall k | 0 <= k < n :: !OccursAt(text, needle, k)
    ensures !OccursAt(text[..n], needle, i)
  {
    if i + |needle| <= n {
      assert !OccursAt(text, needle, i);
      assert text[..n][i..i + |needle|] == text[i..i + |needle|];
    }
  }

  lemma AppendedFree(text: string)
    requires Find(text, StartMarker(), 0) == -1 && Find(text, EndMarker(), 0) == -1
    ensures MarkerFree(Appended(text))
  {
    MarkerShape();
    FindFirst(text, StartMarker(), 0);
    FindFirst(text, EndMarker(), 0);
    assert MarkerFree(text);
    FreeOf(Heading());
    NoMarkers();
    hide MarkerFree, StartMarker, EndMarker, Find;
    FreeAside(Heading(), '\n', "");
    FreeAside(Heading() + "\n", '\n', "");
    assert Heading() + (['\n'] + "") == Heading() + "\n" && (Heading() + "\n") + (['\n'] + "") == Heading() + "\n\n";
    FreeAside("", '\n', Heading() + "\n\n");
    FreeAside(text, '\n', Heading() + "\n\n");
    AppendedIs(text);
    var h := Heading() + "\n\n";
    assert "" + (['\n'] + h) == "\n" + h;
    FreeAside(text, '\n', "\n" + h);
  }

  lemma AppendedIs(text: string)
    ensures Appended(text) in {text + (['\n'] + (Heading() + "\n\n")), text + (['\n'] + ("\n" + (Heading() + "\n\n")))}
  {
    hide Heading;
    var h := Heading() + "\n\n";
    assert "" + ("\n" + h) == ['\n'] + h && "\n" + ("\n" + h) == ['\n'] + ("\n" + h);
  }

  lemma TableFree(rows: seq<Row>, checked: set<Pair>)
    requires forall i | 0 <= i < |rows| :: Plain(rows[i].pair)
    ensures MarkerFree(TableText(rows, checked)) && LinesOk(RowLines(rows, checked))
  {
    MarkerShape();
    NoMarkers();
    ScaffoldRows();
    hide Request, MarkerFree, StartMarker, EndMarker, RowLine, TableHeader, TableDivider, Plain, LineRun;
    var lines := RowLines(rows, checked);
    forall i | 0 <= i < |rows| ensures MarkerFree(lines[i]) && LineRun(lines[i]) == |lines[i]| { RowLineOk(rows[i], checked); }
    FreeLines([TableHeader(), TableDivider()] + lines);
    FreeAside("", '\n', Terminated([TableHeader(), TableDivider()] + lines));
    assert "" + (['\n'] + Terminated([TableHeader(), TableDivider()] + lines)) == TableText(rows, checked);
  }

  /** The refreshed region is the printed table. */
  lemma RegionAfter(text: string, rows: seq<Row>, checked: set<Pair>, section: string -> string)
    requires MarkersInOrder(text) && forall i | 0 <= i < |rows| :: Plain(rows[i].pair)
    ensures Region(Refreshed(text, rows, checked), section) == TableText(rows, checked)
  {
    TableFree(rows, checked);
    FreeBefore(text);
    RefreshedShape(text, rows, checked);
    hide *;
    RegionFound(Before(text), TableText(rows, checked), After(text), section);
  }

  lemma RegionFound(before: string, table: string, after: string, section: string -> string)
    requires MarkerFree(before) && MarkerFree(table)
    ensures Region(before + (StartMarker() + (table + (EndMarker() + after))), section) == table
  {
    MarkersFound(before, table, after);
    MarkerShape();
    hide MarkerFree, StartMarker, EndMarker, Find;
    Between(before, StartMarker(), table, EndMarker() + after);
  }

  lemma Between(a: string, b: string, c: string, d: string)
    ensures (a + (b + (c + d)))[|a| + |b|..|a| + |b| + |c|] == c
  {
  }

  /** A refresh never changes the user's ticks: whatever the vault holds, as long as its values are on
      one line and free of markers, the pairs checked after the refresh are those checked before it. */
  lemma TicksKept(text: string, rows: seq<Row>, section: string -> string)
    requires MarkersInOrder(text) && RowsOk(rows, Checked(text, section))
    ensures Checked(Refreshed(text, rows, Checked(text, section)), section) == Checked(text, section)
  {
    var checked := Checked(text, section);
    TicksReadable(SplitLines(Region(text, section)));
    RegionAfter(text, rows, checked, section);
    TableFree(rows, checked);
    TicksOfTable(rows, checked);
    hide Region, TableText, RowLines, Plain, Readable, SplitLines, Refreshed, MarkersInOrder, LinesOk;
    forall p | p in checked ensures p in set r | r in rows && r.pair in checked :: r.pair {
      var r :| r in rows && r.pair == p;
    }
  }

  /** Outside the marked region nothing changes: a note with markers keeps what is before and after
      them, a note without keeps its whole text in front of the new section. */
  lemma OutsideKept(text: string, rows: seq<Row>, checked: set<Pair>)
    requires MarkersInOrder(text) && forall i | 0 <= i < |rows| :: Plain(rows[i].pair)
    ensures Before(Refreshed(text, rows, checked)) == Before(text) && After(Refreshed(text, rows, checked)) == After(text)
    ensures Find(text, StartMarker(), 0) == -1 ==> text <= Before(text)
    ensures Find(text, StartMarker(), 0) != -1 ==> Before(text) <= text && |After(text)| <= |text|
                                                   && text[|text| - |After(text)|..] == After(text)
  {
    KeptParts(text);
    TableFree(rows, checked);
    FreeBefore(text);
    RefreshedShape(text, rows, checked);
    hide *;
    PartsFound(Before(text), TableText(rows, checked), After(text));
  }

  lemma KeptParts(text: string)
    requires MarkersInOrder(text)
    ensures Find(text, StartMarker(), 0) == -1 ==> text <= Before(text)
    ensures Find(text, StartMarker(), 0) != -1 ==> Before(text) <= text && |After(text)| <= |text|
                                                   && text[|text| - |After(text)|..] == After(text)
  {
    hide StartMarker, EndMarker, Heading;
  }

  lemma PartsFound(before: string, table: string, after: string)
    requires MarkerFree(before) && MarkerFree(table)
    ensures var text := before + (StartMarker() + (table + (EndMarker() + after)));
            Before(text) == before && After(text) == after
  {
    MarkersFound(before, table, after);
    MarkerShape();
    hide MarkerFree, StartMarker, EndMarker, Find;
    Ends(before, StartMarker(), table, EndMarker(), after);
  }

  lemma Ends(a: string, b: string, c: string, d: string, e: string)
    ensures var s := a + (b + (c + (d + e))); s[..|a|] == a && s[|a| + |b| + |c| + |d|..] == e
  {
  }

  /** Refreshing again with the same rows changes nothing. */
  lemma RefreshIdempotent(text: string, rows: seq<Row>, section: string -> string)
    requires MarkersInOrder(text) && RowsOk(rows, Checked(text, section))
    ensures var once := Refreshed(text, rows, Checked(text, section));
            Refreshed(once, rows, Checked(once, section)) == once
  {
    var checked := Checked(text, section);
    TicksKept(text, rows, section);
    OutsideKept(text, rows, checked);
    hide Refreshed, Before, After, Plain, MarkersInOrder, Checked;
    RefreshedShape(text, rows, checked);
    RefreshedShape(Refreshed(text, rows, checked), rows, checked);
  }

  // ---- the rows of the vault ----

  /** A scanned note: its path and the text each property holds, "" when it holds none. */
  datatype Entry = Entry(path: string, domain: string, noteType: string, parent: string, sourceKind: string, captureType: string)

  /** `_CANDIDATE_PROPERTIES`, in display order. */
  function PropertyAt(k: nat): string
    requires k < 5
  {
    if k == 0 then "domain" else if k == 1 then "type" else if k == 2 then "parent"
    else if k == 3 then "source_kind" else "capture_type"
  }

  /** The text after the first bar of a wikilink, and after the last slash of a path. */
  function AfterBar(s: string): string {
    if s == "" then s else if s[0] == '|' then s[1..] else AfterBar(s[1..])
  }

  function AfterSlash(s: string): string {
    if s == "" || s[|s| - 1] == '/' then "" else AfterSlash(s[..|s| - 1]) + [s[|s| - 1]]
  }

  /** `_parent_label`. */
  function ParentLabel(value: string): string {
    var text := Strip(value);
    var inner := if |text| >= 4 && "[[" <= text && text[|text| - 2..] == "]]" then Strip(text[2..|text| - 2]) else text;
    var shown := if '|' in inner then Strip(AfterBar(inner)) else inner;
    if '/' in shown then Strip(AfterSlash(shown)) else shown
  }

  /** What an entry counts for under a property; "" for nothing. */
  function Label(e: Entry, k: nat): string
    requires k < 5
  {
    if k == 0 then Strip(e.domain) else if k == 1 then Strip(e.noteType) else if k == 2 then ParentLabel(e.parent)
    else if k == 3 then Strip(e.sourceKind) else Strip(e.captureType)
  }

  /** System and dashboard notes are scaffolding. */
  predicate Skipped(e: Entry, prefixes: seq<string>) {
    exists i | 0 <= i < |prefixes| :: prefixes[i] <= e.path
  }

  /** How many of the notes have the label under the property. */
  function Count(entries: seq<Entry>, prefixes: seq<string>, k: nat, shown: string): nat
    requires k < 5
  {
    if entries == [] then 0
    else
      var e := entries[|entries| - 1];
      Count(entries[..|entries| - 1], prefixes, k, shown) + (if !Skipped(e, prefixes) && shown != "" && Label(e, k) == shown then 1 else 0)
  }

  /** The tally of one property. */
  method Tally(entries: seq<Entry>, prefixes: seq<string>, k: nat) returns (counts: map<string, nat>)
    requires k < 5
    ensures forall v :: v in counts <==> Count(entries, prefixes, k, v) > 0
    ensures forall v | v in counts :: counts[v] == Count(entries, prefixes, k, v)
  {
    hide Label, Skipped;
    counts := map[];
    for n := 0 to |entries|
      invariant forall v :: v in counts <==> Count(entries[..n], prefixes, k, v) > 0
      invariant forall v | v in counts :: counts[v] == Count(entries[..n], prefixes, k, v)
    {
      assert entries[..n + 1][..n] == entries[..n];
      var shown := Label(entries[n], k);
      if !Skipped(entries[n], prefixes) && shown != "" {
        counts := counts[shown := if shown in counts then counts[shown] + 1 else 1];
      }
    }
    assert entries[..|entries|] == entries;
  }

  /** Higher counts first, then by property and value. */
  predicate Ahead(a: Row, b: Row) {
    a.count > b.count || (a.count == b.count && PairLeq(a.pair, b.pair))
  }

  predicate PairLeq(p: Pair, q: Pair) {
    (p.0 != q.0 && Frontmatter.Leq(p.0, q.0)) || (p.0 == q.0 && Frontmatter.Leq(p.1, q.1))
  }

  ghost predicate Ordered(rows: seq<Row>) {
    forall i, j | 0 <= i < j < |rows| :: Ahead(rows[i], rows[j])
  }

  lemma AheadTotal(a: Row, b: Row)
    ensures Ahead(a, b) || Ahead(b, a)
  {
    Frontmatter.LeqTotal(a.pair.0, b.pair.0);
    Frontmatter.LeqTotal(a.pair.1, b.pair.1);
  }

  lemma AheadTransitive(a: Row, b: Row, c: Row)
    requires Ahead(a, b) && Ahead(b, c)
    ensures Ahead(a, c)
  {
    if a.count == b.count == c.count {
      var p, q, r := a.pair, b.pair, c.pair;
      if p.0 == q.0 == r.0 {
        Frontmatter.LeqTransitive(p.1, q.1, r.1);
      } else if p.0 != q.0 && q.0 != r.0 {
        Frontmatter.LeqTransitive(p.0, q.0, r.0);
        Frontmatter.LeqTotal(p.0, q.0);
      }
    }
  }

  /** `sorted(...)`, one insertion at a time. */
  method SortRows(todo: set<Row>) returns (rows: seq<Row>)
    ensures Ordered(rows) && forall r :: r in rows <==> r in todo
    ensures forall i, j | 0 <= i < j < |rows| :: rows[i] != rows[j]
  {
    rows := [];
    var left := todo;
    while left != {}
      invariant left <= todo && Ordered(rows) && forall i, j | 0 <= i < j < |rows| :: rows[i] != rows[j]
      invariant forall r :: r in rows <==> r in todo && r !in left
    {
      var x :| x in left;
      var n: nat := |rows|;
      while n > 0 && !Ahead(rows[n - 1], x)
        invariant n <= |rows|
        invariant forall i | n <= i < |rows| :: !Ahead(rows[i], x)
      {
        n := n - 1;
      }
      InsertOrdered(rows, n, x);
      rows := rows[..n] + [x] + rows[n..];
      left := left - {x};
    }
  }

  lemma InsertOrdered(rows: seq<Row>, n: nat, x: Row)
    requires Ordered(rows) && n <= |rows| && (n > 0 ==> Ahead(rows[n - 1], x)) && forall i | n <= i < |rows| :: !Ahead(rows[i], x)
    requires x !in rows && forall i, j | 0 <= i < j < |rows| :: rows[i] != rows[j]
    ensures forall i, j | 0 <= i < j < |rows| + 1 :: (rows[..n] + [x] + rows[n..])[i] != (rows[..n] + [x] + rows[n..])[j]
    ensures Ordered(rows[..n] + [x] + rows[n..])
    ensures forall r :: r in rows[..n] + [x] + rows[n..] <==> r in rows || r == x
  {
    hide Ahead;
    var t := rows[..n] + [x] + rows[n..];
    assert rows == rows[..n] + rows[n..];
    forall i | 0 <= i < n ensures Ahead(rows[i], x) {
      if i < n - 1 { AheadTransitive(rows[i], rows[n - 1], x); }
    }
    forall i | n <= i < |rows| ensures Ahead(x, rows[i]) { AheadTotal(rows[i], x); }
    forall i, j | 0 <= i < j < |t| ensures Ahead(t[i], t[j]) {
      if i != n && j != n {
        assert t[i] == rows[if i < n then i else i - 1] && t[j] == rows[if j < n then j else j - 1];
      }
    }
  }

  /** The pair has a row of its own merit: often enough in the vault, or kept because it is checked. */
  predicate Offered(entries: seq<Entry>, prefixes: seq<string>, atLeast: int, keep: set<Pair>, k: nat, v: string)
    requires k < 5
  {
    Count(entries, prefixes, k, v) > 0
    && (Count(entries, prefixes, k, v) >= atLeast || (PropertyAt(k), v) in keep)
  }

  /** `r` is the row of an offered value of property `j`, with its count. */
  predicate RowFor(entries: seq<Entry>, prefixes: seq<string>, atLeast: int, keep: set<Pair>, r: Row, j: nat)
    requires j < 5
  {
    && r.pair.0 == PropertyAt(j) && r.count == Count(entries, prefixes, j, r.pair.1)
    && Offered(entries, prefixes, atLeast, keep, j, r.pair.1)
  }

  /** The rows of the first `k` properties. */
  ghost predicate RowsTo(entries: seq<Entry>, prefixes: seq<string>, atLeast: int, keep: set<Pair>, rows: seq<Row>, k: nat)
    requires k <= 5
  {
    && (forall r | r in rows :: exists j: nat :: j < k && RowFor(entries, prefixes, atLeast, keep, r, j))
    && (forall j: nat, v: string | j < k && Offered(entries, prefixes, atLeast, keep, j, v) ::
          Row((PropertyAt(j), v), Count(entries, prefixes, j, v)) in rows)
    && (forall i, j | 0 <= i < j < |rows| && rows[i].pair.0 == rows[j].pair.0 :: Ahead(rows[i], rows[j]))
    && Once(rows)
  }

  /** No pair has two rows. */
  ghost predicate Once(rows: seq<Row>) {
    forall i, j | 0 <= i < j < |rows| :: rows[i].pair != rows[j].pair
  }

  /** The first `n` rows are the offered pairs of all five properties; the others are kept pairs that no
      note has any more. */
  ghost predicate SplitAfter(entries: seq<Entry>, prefixes: seq<string>, atLeast: int, keep: set<Pair>, rows: seq<Row>, n: nat) {
    && n <= |rows| && RowsTo(entries, prefixes, atLeast, keep, rows[..n], 5)
    && (forall r | r in rows[n..] :: r.pair in keep && r.count == 0) && Ordered(rows[n..])
  }

  ghost predicate IsTable(entries: seq<Entry>, prefixes: seq<string>, atLeast: int, keep: set<Pair>, rows: seq<Row>) {
    && Once(rows) && (forall p | p in keep :: exists r :: r in rows && r.pair == p)
    && exists n: nat :: SplitAfter(entries, prefixes, atLeast, keep, rows, n)
  }

  /** `candidate_rows`: a row, with its count, for exactly the offered pairs and for every kept one. */
  method CandidateRows(entries: seq<Entry>, prefixes: seq<string>, atLeast: int, keep: set<Pair>) returns (rows: seq<Row>)
    ensures IsTable(entries, prefixes, atLeast, keep, rows)
  {
    hide Count, Ordered;
    rows := [];
    for k := 0 to 5
      invariant RowsTo(entries, prefixes, atLeast, keep, rows, k)
    {
      var counts := Tally(entries, prefixes, k);
      var todo := set v | v in counts && (counts[v] >= atLeast || (PropertyAt(k), v) in keep) :: Row((PropertyAt(k), v), counts[v]);
      var more := SortRows(todo);
      TallyRows(entries, prefixes, atLeast, keep, more, counts, k);
      RowsGrow(entries, prefixes, atLeast, keep, rows, more, k);
      rows := rows + more;
    }
    var present := set r | r in rows :: r.pair;
    var left := set p | p in keep && p !in present :: Row(p, 0);
    var last := SortRows(left);
    ghost var n := |rows|;
    forall i, j | 0 <= i < |last| && 0 <= j < |last| && i != j ensures last[i].pair != last[j].pair {
      assert last[i] in last && last[j] in last;
    }
    forall i, j | 0 <= i < |rows| && 0 <= j < |last| ensures rows[i].pair != last[j].pair {
      assert rows[i] in rows && last[j] in last;
    }
    OnceJoined(rows, last);
    assert (rows + last)[..n] == rows && (rows + last)[n..] == last;
    assert SplitAfter(entries, prefixes, atLeast, keep, rows + last, n);
    forall p | p in keep ensures exists r :: r in rows + last && r.pair == p {
      if p in present {
        var r :| r in rows && r.pair == p;
        assert r in rows + last;
      } else {
        assert Row(p, 0) in rows + last;
      }
    }
    rows := rows + last;
  }

  /** `more` holds exactly the rows of the offered values of property `k`, in order. */
  ghost predicate RowsOf(
    entries: seq<Entry>, prefixes: seq<string>, atLeast: int, keep: set<Pair>, more: seq<Row>, k: nat)
    requires k < 5
  {
    && (forall r | r in more :: RowFor(entries, prefixes, atLeast, keep, r, k))
    && (forall v: string | Offered(entries, prefixes, atLeast, keep, k, v) ::
          Row((PropertyAt(k), v), Count(entries, prefixes, k, v)) in more)
    && Ordered(more) && Once(more)
  }

  lemma TallyRows(
    entries: seq<Entry>, prefixes: seq<string>, atLeast: int, keep: set<Pair>, more: seq<Row>, counts: map<string, nat>, k: nat)
    requires k < 5 && Ordered(more) && forall i, j | 0 <= i < j < |more| :: more[i] != more[j]
    requires forall v :: v in counts <==> Count(entries, prefixes, k, v) > 0
    requires forall v | v in counts :: counts[v] == Count(entries, prefixes, k, v)
    requires forall r :: r in more <==>
               exists v :: v in counts && (counts[v] >= atLeast || (PropertyAt(k), v) in keep) && r == Row((PropertyAt(k), v), counts[v])
    ensures RowsOf(entries, prefixes, atLeast, keep, more, k)
  {
    hide Count, PropertyAt, Ordered;
    forall i | 0 <= i < |more| ensures more[i].pair.1 in counts && more[i] == Row((PropertyAt(k), more[i].pair.1), counts[more[i].pair.1]) {
      assert more[i] in more;
    }
    forall v: string | Offered(entries, prefixes, atLeast, keep, k, v)
      ensures Row((PropertyAt(k), v), Count(entries, prefixes, k, v)) in more
    {
      assert Row((PropertyAt(k), v), counts[v]) in more;
    }
  }

  lemma RowsGrow(
    entries: seq<Entry>, prefixes: seq<string>, atLeast: int, keep: set<Pair>, rows: seq<Row>, more: seq<Row>, k: nat)
    requires k < 5 && RowsTo(entries, prefixes, atLeast, keep, rows, k) && RowsOf(entries, prefixes, atLeast, keep, more, k)
    ensures RowsTo(entries, prefixes, atLeast, keep, rows + more, k + 1)
  {
    RowsApart(entries, prefixes, atLeast, keep, rows, more, k);
    hide Count, PropertyAt, Ahead, RowFor, Offered;
    var all := rows + more;
    forall r | r in all ensures exists j: nat :: j < k + 1 && RowFor(entries, prefixes, atLeast, keep, r, j) {
      if r in more { assert RowFor(entries, prefixes, atLeast, keep, r, k); }
    }
    forall j: nat, v: string | j < k + 1 && Offered(entries, prefixes, atLeast, keep, j, v)
      ensures Row((PropertyAt(j), v), Count(entries, prefixes, j, v)) in all
    {
      var r := Row((PropertyAt(j), v), Count(entries, prefixes, j, v));
      assert if j < k then r in rows else r in more;
    }
    forall i, j | 0 <= i < j < |all| && all[i].pair.0 == all[j].pair.0 ensures Ahead(all[i], all[j]) {}
    OnceJoined(rows, more);
  }

  lemma OnceJoined(a: seq<Row>, b: seq<Row>)
    requires Once(a) && Once(b) && forall i, j | 0 <= i < |a| && 0 <= j < |b| :: a[i].pair != b[j].pair
    ensures Once(a + b)
  {
  }

  /** Rows of different properties never carry the same property name. */
  lemma RowsApart(
    entries: seq<Entry>, prefixes: seq<string>, atLeast: int, keep: set<Pair>, rows: seq<Row>, more: seq<Row>, k: nat)
    requires k < 5 && RowsTo(entries, prefixes, atLeast, keep, rows, k) && RowsOf(entries, prefixes, atLeast, keep, more, k)
    ensures forall i, j | 0 <= i < |rows| && 0 <= j < |more| :: rows[i].pair.0 != more[j].pair.0
  {
    forall j: nat | j < k ensures PropertyAt(j) != PropertyAt(k) { PropertiesDiffer(j, k); }
    hide Count, PropertyAt, Ahead, Offered, Ordered;
    forall i | 0 <= i < |rows| ensures rows[i].pair.0 != PropertyAt(k) { assert rows[i] in rows; }
    forall j | 0 <= j < |more| ensures more[j].pair.0 == PropertyAt(k) { assert more[j] in more; }
  }

  lemma PropertiesDiffer(j: nat, k: nat)
    requires j < k < 5
    ensures PropertyAt(j) != PropertyAt(k)
  {
  }

  /** The schema note, whose table is refreshed in place. */
  class SchemaFile {
    var text: string

    constructor (initial: string)
      ensures text == initial
    {
      text := initial;
    }

    /** `refresh_dashboard_table`: on a note with its markers in order, and a vault and a table whose
        pairs can be printed, no tick is lost or gained. */
    method Refresh(entries: seq<Entry>, prefixes: seq<string>, atLeast: int, section: string -> string) returns (rows: seq<Row>)
      modifies this
      ensures IsTable(entries, prefixes, atLeast, Checked(old(text), section), rows)
      ensures text == Refreshed(old(text), rows, Checked(old(text), section))
      ensures MarkersInOrder(old(text)) && (forall i | 0 <= i < |rows| :: Plain(rows[i].pair)) ==>
                Checked(text, section) == Checked(old(text), section)
    {
      hide Refreshed, Checked, MarkersInOrder, Plain;
      var requests := ParseRequests(text, section);
      var checked := set p | p in requests;
      rows := CandidateRows(entries, prefixes, atLeast, checked);
      if MarkersInOrder(text) && forall i | 0 <= i < |rows| :: Plain(rows[i].pair) { TicksKept(text, rows, section); }
      text := Refreshed(text, rows, checked);
    }
  }
}
