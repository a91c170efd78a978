/** Rows of the Markdown tables in the schema note: printing cells and reading them back. */
module MarkdownTable {
  import opened Text
  import opened NoteBody

  /** `s.split(c)` */
  function SplitOn(s: string, c: char): (r: seq<string>)
    ensures r != [] && forall i | 0 <= i < |r| :: c !in r[i]
  {
    if s == "" then [""]
    else if s[0] == c then [""] + SplitOn(s[1..], c)
    else
      var rest := SplitOn(s[1..], c);
      [[s[0]] + rest[0]] + rest[1..]
  }

  lemma {:induction false} SplitAt(a: string, c: char, b: string)
    requires c !in a
    ensures SplitOn(a + ([c] + b), c) == [a] + SplitOn(b, c)
  {
    if a == "" {
      assert a + ([c] + b) == [c] + b && ([c] + b)[1..] == b;
    } else {
      assert (a + ([c] + b))[1..] == a[1..] + ([c] + b);
      SplitAt(a[1..], c, b);
      assert [a[0]] + a[1..] == a;
    }
  }

  lemma {:induction false} SplitNone(a: string, c: char)
    requires c !in a
    ensures SplitOn(a, c) == [a]
  {
    if a != "" {
      SplitNone(a[1..], c);
      assert [a[0]] + a[1..] == a;
    }
  }

  /** `s.strip("|")` */
  function StripBars(s: string): string {
    DropBarsRight(DropBarsLeft(s))
  }

  function DropBarsLeft(s: string): string {
    if s != "" && s[0] == '|' then DropBarsLeft(s[1..]) else s
  }

  function DropBarsRight(s: string): string {
    if s != "" && s[|s| - 1] == '|' then DropBarsRight(s[..|s| - 1]) else s
  }

  function StripAll(cells: seq<string>): (r: seq<string>)
    ensures |r| == |cells| && forall i | 0 <= i < |r| :: r[i] == Strip(cells[i])
  {
    seq(|cells|, i requires 0 <= i < |cells| => Strip(cells[i]))
  }

  /** The cells of a table line; nothing for any other line. */
  function Cells(line: string): (r: Option<seq<string>>)
  {
    var t := Strip(line);
    if t == "" || t[0] != '|' then None else Some(StripAll(SplitOn(StripBars(t), '|')))
  }

  function Pad(cell: string): string {
    " " + (cell + " ")
  }

  /** The padded cells between their bars. */
  function Inner(cells: seq<string>): string
    requires cells != []
  {
    if |cells| == 1 then Pad(cells[0]) else Pad(cells[0]) + ("|" + Inner(cells[1..]))
  }

  /** A printed row: `| first | ... | last |`. */
  function RowOf(cells: seq<string>): string
    requires cells != []
  {
    "|" + (Inner(cells) + "|")
  }

  lemma {:induction false} InnerEnds(cells: seq<string>)
    requires cells != []
    ensures Inner(cells) != "" && Inner(cells)[0] == ' ' && Inner(cells)[|Inner(cells)| - 1] == ' '
  {
    if |cells| > 1 { InnerEnds(cells[1..]); }
  }

  lemma BarsAround(inner: string)
    requires inner != "" && inner[0] != '|' && inner[|inner| - 1] != '|'
    ensures StripBars("|" + (inner + "|")) == inner
  {
    var t := inner + "|";
    var s := "|" + t;
    assert s[1..] == t && s[0] == '|' && t[0] != '|' && t[|t| - 1] == '|';
    assert DropBarsLeft(s) == DropBarsLeft(t) == t;
    assert t[..|t| - 1] == inner;
    assert DropBarsRight(t) == DropBarsRight(inner) == inner;
  }

  /** A printed row is read as the text between its outer bars. */
  lemma RowCells(cells: seq<string>)
    requires cells != []
    ensures Cells(RowOf(cells)) == Some(StripAll(SplitOn(Inner(cells), '|')))
  {
    assert !IsSpace('|');
    hide IsSpace, Inner, SplitOn, StripBars;
    var line := RowOf(cells);
    assert line[0] == '|' && line[|line| - 1] == '|';
    StripTrimmed(line);
    hide Strip;
    InnerEnds(cells);
    BarsAround(Inner(cells));
  }

  lemma PadStrips(s: string)
    requires Trimmed(s)
    ensures Strip(Pad(s)) == s
  {
    assert IsSpace(' ');
    hide IsSpace;
    StripPadded(" ", s, " ");
    hide Strip;
    assert Pad(s) == " " + s + " ";
  }

  lemma BlankPad()
    ensures Strip(Pad(" ")) == ""
  {
    assert IsSpace(' ');
    hide IsSpace;
    StripPadded("   ", "", "");
    hide Strip;
    assert Pad(" ") == "   " + "" + "";
  }

  /** Splitting a row at its bars: the first padded cell, then the rest. */
  lemma SplitInner(cells: seq<string>)
    requires |cells| >= 2 && '|' !in cells[0]
    ensures SplitOn(Inner(cells), '|') == [Pad(cells[0])] + SplitOn(Inner(cells[1..]), '|')
  {
    hide SplitOn;
    SplitAt(Pad(cells[0]), '|', Inner(cells[1..]));
    assert ['|'] == "|";
  }

  lemma StripCons(first: string, rest: seq<string>)
    ensures StripAll([first] + rest) == [Strip(first)] + StripAll(rest)
  {
    hide Strip;
    var s := [first] + rest;
    forall i | 0 <= i < |s| ensures StripAll(s)[i] == ([Strip(first)] + StripAll(rest))[i] {
      if i > 0 { assert s[i] == rest[i - 1]; }
    }
  }

  /** The first cell of a printed row, whatever the others hold. */
  lemma FirstCell(cells: seq<string>)
    requires |cells| >= 2 && '|' !in cells[0]
    ensures Cells(RowOf(cells)).Some? && Cells(RowOf(cells)).value != []
    ensures Cells(RowOf(cells)).value[0] == Strip(Pad(cells[0]))
  {
    hide *;
    RowCells(cells);
    SplitInner(cells);
    StripCons(Pad(cells[0]), SplitOn(Inner(cells[1..]), '|'));
  }

  predicate Clean(cell: string) {
    '|' !in cell && Trimmed(cell)
  }

  lemma CleanPad(c: string)
    requires Clean(c)
    ensures '|' !in c && Strip(Pad(c)) == c
  {
    PadStrips(c);
  }

  lemma OneCell(c: string)
    requires Clean(c)
    ensures StripAll(SplitOn(Inner([c]), '|')) == [c]
  {
    PadStrips(c);
    hide Strip, Trimmed, SplitOn;
    assert '|' !in Pad(c);
    SplitNone(Pad(c), '|');
  }

  lemma {:induction false} InnerReadsBack(cells: seq<string>)
    requires cells != [] && forall i | 0 <= i < |cells| :: Clean(cells[i])
    ensures StripAll(SplitOn(Inner(cells), '|')) == cells
  {
    hide *;
    if |cells| == 1 {
      assert cells == [cells[0]];
      OneCell(cells[0]);
    } else {
      CleanPad(cells[0]);
      InnerReadsBack(cells[1..]);
      SplitInner(cells);
      StripCons(Pad(cells[0]), SplitOn(Inner(cells[1..]), '|'));
      assert cells == [cells[0]] + cells[1..];
    }
  }

  /** Clean cells are read back exactly as they were printed. */
  lemma RowReadsBack(cells: seq<string>)
    requires cells != [] && forall i | 0 <= i < |cells| :: Clean(cells[i])
    ensures Cells(RowOf(cells)) == Some(cells)
  {
    hide *;
    RowCells(cells);
    InnerReadsBack(cells);
  }

  /** The cells of a line are stripped and hold no bar. */
  lemma CellsClean(line: string)
    ensures Cells(line).Some? ==> forall i | 0 <= i < |Cells(line).value| :: Clean(Cells(line).value[i])
  {
    if Cells(line).Some? {
      var parts := SplitOn(StripBars(Strip(line)), '|');
      hide Cells;
      forall i | 0 <= i < |parts| ensures Clean(Strip(parts[i])) { StripKeepsOut(parts[i], '|'); }
      CellsAre(line);
    }
  }

  lemma CellsAre(line: string)
    requires Cells(line).Some?
    ensures Cells(line).value == StripAll(SplitOn(StripBars(Strip(line)), '|'))
  {
  }

  lemma StripKeepsOut(s: string, c: char)
    requires c !in s
    ensures c !in Strip(s) && Trimmed(Strip(s))
  {
    StripWithin(s);
    StripIsTrimmed(s);
    hide Strip, Trimmed;
  }

  // ---- lines of a text ----

  /** A line without breaks, then the lines of the rest. */
  lemma LineThenRest(line: string, rest: string)
    requires LineRun(line) == |line|
    ensures SplitLines(line + ("\n" + rest)) == [line] + SplitLines(rest)
  {
    var s := line + ("\n" + rest);
    assert IsBreak('\n');
    hide IsBreak;
    LineRunShape(line);
    hide LineRun;
    assert forall i | 0 <= i < |line| :: s[i] == line[i];
    LineRunIs(s, |line|);
    assert s[..|line|] == line && s[|line| + 1..] == rest && s[|line|] == '\n';
  }

  predicate LinesOk(lines: seq<string>) {
    forall i | 0 <= i < |lines| :: LineRun(lines[i]) == |lines[i]|
  }

  function Terminated(lines: seq<string>): string {
    if lines == [] then "" else lines[0] + ("\n" + Terminated(lines[1..]))
  }

  lemma {:induction false} LinesOfTerminated(lines: seq<string>, rest: string)
    requires LinesOk(lines)
    ensures SplitLines(Terminated(lines) + rest) == lines + SplitLines(rest)
  {
    hide SplitLines, LineRun;
    if lines == [] {
      assert "" + rest == rest;
    } else {
      var more := Terminated(lines[1..]);
      LinesOfTerminated(lines[1..], rest);
      LineThenRest(lines[0], more + rest);
      Regroup(lines[0], more, rest);
      assert lines == [lines[0]] + lines[1..];
    }
  }

  lemma Regroup(line: string, more: string, rest: string)
    ensures line + ("\n" + more) + rest == line + ("\n" + (more + rest))
  {
  }
}
