/** What ticks a row, what is counted, and which rows a refresh offers, in terms of cells and notes. */
module DashboardLaws {
  import opened Text
  import opened NoteBody
  import opened MarkdownTable
  import opened Dashboard

  // ---- ticks ----

  /** A mark the user may put into the first column, in either case. */
  predicate Mark(build: string) {
    var b := LowerAscii(build);
    b == "x" || b == "yes" || b == "true" || b == "[x]" || b == "\U{2713}" || b == "\U{2714}"
  }

  /** A property of its own: not the word of the header, and not drawn with dashes and colons only. */
  predicate Property(p: string) {
    LowerAscii(p) != "property" && exists c | c in p :: c != '-' && c != ':'
  }

  /** A row ticks its pair if and only if its first cell is marked and the next two name a property and a
      value; further cells do not matter. */
  lemma TickIff(build: string, p: string, v: string, more: seq<string>)
    requires Clean(build) && Clean(p) && Clean(v) && forall i | 0 <= i < |more| :: Clean(more[i])
    ensures Request(RowOf([build, p, v] + more)) == Some((p, v)) <==> Mark(build) && Property(p) && v != ""
    ensures Request(RowOf([build, p, v] + more)) in {None, Some((p, v))}
  {
    ScaffoldIs(p);
    TickedIs(build);
    hide Clean, Ticked, Scaffold, Mark, Property, Cells, RowOf;
    RowReadsBack([build, p, v] + more);
  }

  lemma ScaffoldIs(p: string)
    ensures p != "" && !Scaffold(p) <==> Property(p)
  {
    hide LowerAscii;
    if p != "" && !Scaffold(p) {
      var i :| 0 <= i < |p| && p[i] != '-' && p[i] != ':';
      assert p[i] in p;
    }
  }

  lemma TickedIs(build: string)
    ensures Ticked(build) <==> Mark(build)
  {
    hide LowerAscii;
  }

  /** A line that is not a row of at least three cells ticks nothing. */
  lemma NoRowNoTick(line: string)
    requires Strip(line) == "" || Strip(line)[0] != '|' || |SplitOn(StripBars(Strip(line)), '|')| < 3
    ensures Request(line).None?
  {
    hide Strip, SplitOn, StripBars;
  }

  // ---- where the table is ----

  /** The table is what stands between the first start marker and the first end marker if the end marker
      comes later; in every other case the section under the heading is read and a refresh appends. */
  lemma TableStands(before: string, table: string, after: string, section: string -> string)
    requires MarkerFree(before) && MarkerFree(table)
    ensures Region(before + (StartMarker() + (table + (EndMarker() + after))), section) == table
  {
    MarkersFound(before, table, after);
    MarkerShape();
    hide MarkerFree, StartMarker, EndMarker, Find;
    Middle(before, StartMarker(), table, EndMarker() + after);
  }

  lemma Middle(a: string, b: string, c: string, d: string)
    ensures (a + (b + (c + d)))[|a| + |b|..|a| + |b| + |c|] == c
  {
  }

  lemma NoTableStands(text: string, rows: seq<Row>, checked: set<Pair>, section: string -> string)
    requires !Occurs(text, StartMarker()) || !Occurs(text, EndMarker())
          || Find(text, EndMarker(), 0) <= Find(text, StartMarker(), 0)
    ensures Region(text, section) == section(text)
    ensures Refreshed(text, rows, checked) == Appended(text) + (Block(rows, checked) + "\n")
    ensures Appended(text) == (if EndsWith(text, "\n") then text else text + "\n") + "\n## Dashboards\n\n"
  {
    FindOccurs(text, StartMarker());
    FindOccurs(text, EndMarker());
    hide Occurs, StartMarker, EndMarker, Find, Block;
    AppendedSays(text);
  }

  lemma AppendedSays(text: string)
    ensures Appended(text) == (if EndsWith(text, "\n") then text else text + "\n") + "\n## Dashboards\n\n"
  {
    assert EndsWith(text, "\n") <==> text != "" && text[|text| - 1] == '\n';
    assert "\n" + (Heading() + "\n\n") == "\n## Dashboards\n\n";
    hide Heading;
    assert text + ("" + "\n## Dashboards\n\n") == text + "\n## Dashboards\n\n";
    assert text + ("\n" + "\n## Dashboards\n\n") == (text + "\n") + "\n## Dashboards\n\n";
  }

  // ---- what is counted ----

  lemma {:induction false} AfterBarIs(a: string, b: string)
    requires '|' !in a
    ensures AfterBar(a + ("|" + b)) == b
  {
    if a == "" {
      assert a + ("|" + b) == "|" + b;
    } else {
      assert (a + ("|" + b))[1..] == a[1..] + ("|" + b);
      AfterBarIs(a[1..], b);
    }
  }

  lemma {:induction false} AfterSlashIs(a: string, b: string)
    requires '/' !in b
    ensures AfterSlash(a + ("/" + b)) == b
  {
    var s := a + ("/" + b);
    if b == "" {
      assert s == a + "/";
    } else {
      var m, last := b[..|b| - 1], b[|b| - 1];
      assert b == m + [last] && s[..|s| - 1] == a + ("/" + m) && s[|s| - 1] == last;
      AfterSlashIs(a, m);
    }
  }

  predicate PlainLabel(label_: string) {
    && Trimmed(label_) && label_ != "" && '|' !in label_ && '/' !in label_
    && !(|label_| >= 4 && "[[" <= label_ && EndsWith(label_, "]]"))
  }

  lemma LinkInner(inner: string)
    requires Trimmed(inner)
    ensures var s := "[[" + (inner + "]]"); Trimmed(s) && |s| >= 4 && "[[" <= s && s[|s| - 2..] == "]]" && s[2..|s| - 2] == inner
  {
  }

  /** A parent counts under its bare name: plain, linked, linked through a path, or under an alias. */
  lemma ParentCountsAs(label_: string, target: string)
    requires PlainLabel(label_) && Trimmed(target) && target != "" && '|' !in target
    ensures ParentLabel(label_) == label_ && ParentLabel("[[" + (label_ + "]]")) == label_
    ensures ParentLabel("[[" + (target + ("|" + label_) + "]]")) == label_
    ensures ParentLabel("[[" + (target + ("/" + label_) + "]]")) == label_
  {
    StripTrimmed(label_);
    hide Strip, IsSpace;
    LinkInner(label_);
    LinkedAs(label_);
    var aliased, nested := target + ("|" + label_), target + ("/" + label_);
    assert Trimmed(aliased) && Trimmed(nested);
    LinkedAs(aliased);
    LinkedAs(nested);
    AfterBarIs(target, label_);
    AfterSlashIs(target, label_);
    assert aliased[|target|] == '|' && nested[|target|] == '/';
    assert '|' !in nested;
    hide AfterBar, AfterSlash;
  }

  /** The name a link's contents give. */
  function Shown(inner: string): string {
    var shown := if '|' in inner then Strip(AfterBar(inner)) else inner;
    if '/' in shown then Strip(AfterSlash(shown)) else shown
  }

  lemma LinkedAs(inner: string)
    requires Trimmed(inner)
    ensures ParentLabel("[[" + (inner + "]]")) == Shown(inner)
  {
    LinkInner(inner);
    StripTrimmed(inner);
    StripTrimmed("[[" + (inner + "]]"));
    hide Strip, AfterBar, AfterSlash;
  }

  /** What a note says under each property of the table. */
  ghost predicate Has(e: Entry, property: string, v: string) {
    || (property == "domain" && Strip(e.domain) == v)
    || (property == "type" && Strip(e.noteType) == v)
    || (property == "parent" && ParentLabel(e.parent) == v)
    || (property == "source_kind" && Strip(e.sourceKind) == v)
    || (property == "capture_type" && Strip(e.captureType) == v)
  }

  /** The notes counted for a pair: those outside the system and dashboard folders that have the value. */
  ghost function Having(entries: seq<Entry>, prefixes: seq<string>, property: string, v: string): set<nat> {
    set i: nat | i < |entries| && v != "" && Has(entries[i], property, v) && forall p | p in prefixes :: !(p <= entries[i].path)
  }

  lemma LabelIs(e: Entry, k: nat, v: string)
    requires k < 5
    ensures Label(e, k) == v <==> Has(e, PropertyAt(k), v)
  {
    hide Strip, ParentLabel;
  }

  lemma SkippedIs(e: Entry, prefixes: seq<string>)
    ensures Skipped(e, prefixes) <==> exists p | p in prefixes :: p <= e.path
  {
    if p :| p in prefixes && p <= e.path {
      var i :| 0 <= i < |prefixes| && prefixes[i] == p;
    }
    if i :| 0 <= i < |prefixes| && prefixes[i] <= e.path {
      assert prefixes[i] in prefixes;
    }
  }

  lemma {:induction false} CountIs(entries: seq<Entry>, prefixes: seq<string>, k: nat, v: string)
    requires k < 5
    ensures Count(entries, prefixes, k, v) == |Having(entries, prefixes, PropertyAt(k), v)|
  {
    hide Has, Label, PropertyAt, Skipped;
    if entries == [] {
      assert Having(entries, prefixes, PropertyAt(k), v) == {};
    } else {
      var n := |entries| - 1;
      var m := entries[..n];
      CountIs(m, prefixes, k, v);
      LabelIs(entries[n], k, v);
      SkippedIs(entries[n], prefixes);
      var all, before := Having(entries, prefixes, PropertyAt(k), v), Having(m, prefixes, PropertyAt(k), v);
      assert forall i: nat | i < n :: m[i] == entries[i];
      if n in all { assert all == before + {n}; } else { assert all == before; }
    }
  }

  // ---- which rows a refresh offers ----

  predicate Charted(property: string) {
    property in {"domain", "type", "parent", "source_kind", "capture_type"}
  }

  /** A table of the vault has one row for each pair that enough notes have, and for each pair that is
      kept; no other row, and with each row the number of notes that have its pair. */
  lemma TableSays(entries: seq<Entry>, prefixes: seq<string>, atLeast: int, keep: set<Pair>, rows: seq<Row>, p: Pair)
    requires IsTable(entries, prefixes, atLeast, keep, rows)
    ensures var n := if Charted(p.0) then |Having(entries, prefixes, p.0, p.1)| else 0;
      && ((exists r :: r in rows && r.pair == p) <==> p in keep || (0 < n && atLeast <= n))
      && (forall r | r in rows && r.pair == p :: r.count == n)
    ensures forall i, j | 0 <= i < j < |rows| :: rows[i].pair != rows[j].pair
  {
    var m: nat :| SplitAfter(entries, prefixes, atLeast, keep, rows, m);
    assert rows == rows[..m] + rows[m..];
    var n := if Charted(p.0) then |Having(entries, prefixes, p.0, p.1)| else 0;
    hide Having, Ordered, Ahead;
    if Charted(p.0) {
      var k := PropertyIndex(p.0);
      CountIs(entries, prefixes, k, p.1);
      hide Count;
      RowOfCharted(entries, prefixes, atLeast, keep, rows, m, k, p);
    } else {
      hide Count;
      RowOfOther(entries, prefixes, atLeast, keep, rows, m, p);
    }
  }

  function PropertyIndex(property: string): (k: nat)
    requires Charted(property)
    ensures k < 5 && PropertyAt(k) == property
  {
    if property == "domain" then 0 else if property == "type" then 1 else if property == "parent" then 2
    else if property == "source_kind" then 3 else 4
  }

  lemma RowOfCharted(entries: seq<Entry>, prefixes: seq<string>, atLeast: int, keep: set<Pair>, rows: seq<Row>, m: nat, k: nat, p: Pair)
    requires IsTable(entries, prefixes, atLeast, keep, rows) && SplitAfter(entries, prefixes, atLeast, keep, rows, m)
    requires k < 5 && p.0 == PropertyAt(k)
    ensures var n := Count(entries, prefixes, k, p.1);
      && ((exists r :: r in rows && r.pair == p) <==> p in keep || (0 < n && atLeast <= n))
      && (forall r | r in rows && r.pair == p :: r.count == n)
  {
    var n := Count(entries, prefixes, k, p.1);
    forall j: nat | j < 5 && j != k ensures PropertyAt(j) != p.0 {
      if j < k { PropertiesDiffer(j, k); } else { PropertiesDiffer(k, j); }
    }
    hide Count, PropertyAt, Ordered, Ahead;
    assert rows == rows[..m] + rows[m..];
    assert RowsTo(entries, prefixes, atLeast, keep, rows[..m], 5);
    var own := Row(p, n);
    if Offered(entries, prefixes, atLeast, keep, k, p.1) { assert own in rows[..m]; }
    forall r | r in rows && r.pair == p ensures r.count == n && (p in keep || atLeast <= n) && (r in rows[m..] ==> p in keep) {
      if r in rows[..m] {
        var j: nat :| j < 5 && RowFor(entries, prefixes, atLeast, keep, r, j);
        assert j == k;
      } else {
        KeptApart(entries, prefixes, atLeast, keep, rows, m, k, p, r);
      }
    }
  }

  /** A kept pair after the offered ones is one that no note has. */
  lemma KeptApart(
    entries: seq<Entry>, prefixes: seq<string>, atLeast: int, keep: set<Pair>, rows: seq<Row>, m: nat, k: nat, p: Pair, r: Row)
    requires IsTable(entries, prefixes, atLeast, keep, rows) && SplitAfter(entries, prefixes, atLeast, keep, rows, m)
    requires k < 5 && p.0 == PropertyAt(k) && r in rows[m..] && r.pair == p
    ensures p in keep && r.count == 0 == Count(entries, prefixes, k, p.1)
  {
    hide Count, PropertyAt, Ordered, Ahead;
  }

  lemma RowOfOther(entries: seq<Entry>, prefixes: seq<string>, atLeast: int, keep: set<Pair>, rows: seq<Row>, m: nat, p: Pair)
    requires IsTable(entries, prefixes, atLeast, keep, rows) && SplitAfter(entries, prefixes, atLeast, keep, rows, m)
    requires !Charted(p.0)
    ensures (exists r :: r in rows && r.pair == p) <==> p in keep
    ensures forall r | r in rows && r.pair == p :: r.count == 0
  {
    assert forall j: nat | j < 5 :: Charted(PropertyAt(j));
    hide Count, PropertyAt, Ordered, Ahead, Charted;
    assert rows == rows[..m] + rows[m..];
  }
}
