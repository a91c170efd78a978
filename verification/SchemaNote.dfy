/** The schema note as a Markdown document (`schema_note.py`): printed from the schema, and parsed back. */
module SchemaNote {
  import opened Text
  import opened NoteBody
  import opened MarkdownTable
  import opened SchemaSync
  import opened SchemaTerms

  // ---- what the note says ----

  /** The five sections of controlled values. */
  datatype Kind = NoteTypes | Of(f: Field)

  /** A line of the Properties section. */
  datatype Declared = Declared(name: string, isList: bool, definition: string)

  /** The contents of the note, in order: properties, controlled values, and hubs by domain. */
  datatype Contents = Contents(properties: seq<Declared>, values: Kind -> Listing, hubs: seq<(string, Listing)>)

  /** The fixed wording around the contents; every element is one line. `rest` is everything after the
      hubs: the folder and dashboard sections and the rules, none of which this parser reads. */
  datatype Prose = Prose(preamble: seq<string>, propertiesIntro: seq<string>, hubsIntro: seq<string>, rest: seq<string>)

  // ---- printing ----

  function EmDash(): string { " \U{2014} " }

  /** `_value_line`. */
  function ValueLine(value: string, definition: string): string {
    if Strip(definition) != "" then "- " + (value + (EmDash() + Strip(definition))) else "- " + value
  }

  function ValueLines(l: Listing): (lines: seq<string>)
    ensures |lines| == |l| && forall i | 0 <= i < |l| :: lines[i] == ValueLine(l[i].0, l[i].1)
  {
    seq(|l|, i requires 0 <= i < |l| => ValueLine(l[i].0, l[i].1))
  }

  function PropertyLabel(d: Declared): string {
    if d.isList then d.name + " (list)" else d.name
  }

  /** `_property_line`. */
  function PropertyLines(ds: seq<Declared>): (lines: seq<string>)
    ensures |lines| == |ds| && forall i | 0 <= i < |ds| :: lines[i] == ValueLine(PropertyLabel(ds[i]), ds[i].definition)
  {
    seq(|ds|, i requires 0 <= i < |ds| => ValueLine(PropertyLabel(ds[i]), ds[i].definition))
  }

  function KindHeading(k: Kind): string {
    match k
    case NoteTypes => "## Note types"
    case Of(Status) => "## Status"
    case Of(Domain) => "## Domains"
    case Of(SourceKind) => "## Source kinds"
    case Of(CaptureType) => "## Capture types"
  }

  function KindLines(c: Contents, k: Kind): seq<string> {
    [KindHeading(k), ""] + (ValueLines(c.values(k)) + [""])
  }

  function HubLines(hubs: seq<(string, Listing)>): seq<string> {
    if hubs == [] then []
    else ["### " + hubs[0].0, ""] + (ValueLines(hubs[0].1) + ([""] + HubLines(hubs[1..])))
  }

  function NoHubsLine(): string { "_No topic hubs yet._" }

  function HubSection(c: Contents, p: Prose): seq<string> {
    ["## Topic hubs", ""] + (p.hubsIntro + (if c.hubs == [] then [NoHubsLine(), ""] else HubLines(c.hubs)))
  }

  /** `render_schema_note`, line by line. */
  function RenderedLines(c: Contents, p: Prose): seq<string> {
    p.preamble + (["## Properties", ""] + (p.propertiesIntro + (PropertyLines(c.properties) + ([""]
    + (KindLines(c, NoteTypes) + (KindLines(c, Of(Status)) + (KindLines(c, Of(Domain)) + (KindLines(c, Of(SourceKind))
    + (KindLines(c, Of(CaptureType)) + (HubSection(c, p) + p.rest))))))))))
  }

  // ---- parsing ----

  /** `_HEADING_RE`: the level and the label of a heading of level two or three. */
  function ParseHeading(line: string): Option<(nat, string)> {
    if |line| < 2 || line[0] != '#' || line[1] != '#' then None
    else
      var level := if |line| > 2 && line[2] == '#' then 3 else 2;
      if |line| > level && IsSpace(line[level]) && Strip(line[level..]) != "" then Some((level, Strip(line[level..]))) else None
  }

  /** `_BULLET_RE`: the text of a bullet. */
  function ParseBullet(line: string): Option<string> {
    var t := TrimLeft(line);
    if |t| >= 2 && (t[0] == '-' || t[0] == '*') && IsSpace(t[1]) && Strip(t[1..]) != "" then Some(Strip(t[1..])) else None
  }

  predicate IsDash(c: char) {
    c == '\U{2014}' || c == '\U{2013}' || c == '-'
  }

  /** A separator sits at `i`: a colon, or a dash with white space on both sides. */
  predicate SeparatorAt(s: string, i: nat) {
    i < |s| && (s[i] == ':' || (IsDash(s[i]) && i > 0 && IsSpace(s[i - 1]) && i + 1 < |s| && IsSpace(s[i + 1])))
  }

  function FirstSeparator(s: string, from: nat): (n: nat)
    requires from <= |s|
    ensures from <= n <= |s| && (n < |s| ==> SeparatorAt(s, n)) && forall i: nat | from <= i < n :: !SeparatorAt(s, i)
    decreases |s| - from
  {
    if from == |s| || SeparatorAt(s, from) then from else FirstSeparator(s, from + 1)
  }

  /** `value.strip().strip("`").strip()` */
  function StripTicks(s: string): string {
    Strip(DropTicksRight(DropTicksLeft(Strip(s))))
  }

  function DropTicksLeft(s: string): string {
    if s != "" && s[0] == '`' then DropTicksLeft(s[1..]) else s
  }

  function DropTicksRight(s: string): string {
    if s != "" && s[|s| - 1] == '`' then DropTicksRight(s[..|s| - 1]) else s
  }

  /** `_split_value_def`. */
  function SplitValue(text: string): (string, string) {
    var n := FirstSeparator(text, 0);
    if n == |text| then (StripTicks(text), "") else (StripTicks(text[..n]), Strip(text[n + 1..]))
  }

  /** `_split_property_type`. */
  function SplitType(value: string): (string, bool) {
    var t := TrimRight(value);
    if EndsWith(LowerAscii(t), "(list)") then (Strip(t[..|t| - 6]), true)
    else if EndsWith(LowerAscii(t), "(array)") then (Strip(t[..|t| - 7]), true)
    else (Strip(value), false)
  }

  datatype Section = NoSection | PropertySection | HubsSection | ValueSection(k: Kind)

  /** The section a lower-case heading opens. */
  function SectionOf(heading: string): Section {
    if heading == "note types" || heading == "note type" || heading == "note-types" then ValueSection(NoteTypes)
    else if heading == "status" || heading == "statuses" then ValueSection(Of(Status))
    else if heading == "domains" || heading == "domain" then ValueSection(Of(Domain))
    else if heading == "source kinds" || heading == "source kind" || heading == "source-kinds" then ValueSection(Of(SourceKind))
    else if heading == "capture types" || heading == "capture type" || heading == "capture-types" then ValueSection(Of(CaptureType))
    else if heading == "topic hub" || heading == "topic hubs" then HubsSection
    else if heading == "property" || heading == "properties" then PropertySection
    else NoSection
  }

  /** What has been read so far: the open section, the hub domain ("" for none), and the result. */
  datatype Reader = Reader(
    section: Section, hubDomain: string, properties: seq<Declared>, values: map<Kind, Listing>, hubs: map<string, Listing>)
  {
    function Read(k: Kind): Listing {
      if k in values then values[k] else []
    }
  }

  /** `d[value] = definition` on an ordered dictionary. */
  function SetIn(l: Listing, value: string, definition: string): Listing {
    if value in Values(l) then Replaced(l, value, definition) else l + [(value, definition)]
  }

  function SetProperty(ds: seq<Declared>, d: Declared): seq<Declared> {
    if ds == [] then [d] else if ds[0].name == d.name then [d] + ds[1..] else [ds[0]] + SetProperty(ds[1..], d)
  }

  /** One bullet in an open section. */
  function TakeBullet(r: Reader, text: string): Reader {
    var (value, definition) := SplitValue(text);
    if value == "" then r
    else match r.section
      case NoSection => r
      case HubsSection =>
        if r.hubDomain == "" then r
        else r.(hubs := r.hubs[r.hubDomain := HubsOf(r.hubs, r.hubDomain) + [(value, definition)]])
      case PropertySection =>
        var (name, isList) := SplitType(value);
        if name == "" then r else r.(properties := SetProperty(r.properties, Declared(name, isList, definition)))
      case ValueSection(k) => r.(values := r.values[k := SetIn(r.Read(k), value, definition)])
  }

  function TakeHeading(r: Reader, level: nat, label_: string): Reader {
    if level == 3 && r.section.HubsSection? then r.(hubDomain := label_)
    else r.(section := SectionOf(LowerAscii(label_)), hubDomain := "")
  }

  function TakeLine(r: Reader, line: string): Reader {
    match ParseHeading(line)
    case Some((level, heading)) => TakeHeading(r, level, heading)
    case None =>
      if r.section.NoSection? || ParseBullet(line).None? then r else TakeBullet(r, ParseBullet(line).value)
  }

  function TakeLines(r: Reader, lines: seq<string>): Reader
    decreases lines
  {
    if lines == [] then r else TakeLines(TakeLine(r, lines[0]), lines[1..])
  }

  const EMPTY := Reader(NoSection, "", [], map[], map[])

  /** `parse_schema_note`, but for the folder table. */
  method ParseNote(text: string) returns (r: Reader)
    ensures r == TakeLines(EMPTY, SplitLines(text))
  {
    var lines := SplitLines(text);
    r := EMPTY;
    hide TakeLine, SplitLines;
    for i := 0 to |lines|
      invariant TakeLines(r, lines[i..]) == TakeLines(EMPTY, lines)
    {
      assert lines[i..][1..] == lines[i + 1..];
      r := TakeLine(r, lines[i]);
    }
  }

  // ---- what can be written and read back ----

  /** A value on one line, without surrounding white space or back-ticks, colons, or dashes that stand
      alone after white space. */
  predicate PlainValue(v: string) {
    && v != "" && Trimmed(v) && LineRun(v) == |v| && v[0] != '`' && v[|v| - 1] != '`'
    && forall i | 0 <= i < |v| :: v[i] != ':' && !LoneDash(v, i)
  }

  predicate LoneDash(v: string, i: nat)
    requires i < |v|
  {
    IsDash(v[i]) && i > 0 && IsSpace(v[i - 1]) && (i + 1 == |v| || IsSpace(v[i + 1]))
  }

  ghost predicate PlainListing(l: Listing) {
    && Distinct(Values(l))
    && forall i | 0 <= i < |l| :: PlainValue(l[i].0) && LineRun(l[i].1) == |l[i].1|
  }

  /** A property name that does not itself look like one marked as a list. */
  predicate PlainName(name: string) {
    PlainValue(name) && !EndsWith(LowerAscii(name), "(list)") && !EndsWith(LowerAscii(name), "(array)")
  }

  /** A line that the parser passes over: neither a heading nor a bullet. */
  predicate Idle(line: string) {
    LineRun(line) == |line| && ParseHeading(line).None? && ParseBullet(line).None?
  }

  ghost predicate ContentsOk(c: Contents) {
    && (forall k: Kind :: PlainListing(c.values(k)))
    && (forall i | 0 <= i < |c.properties| ::
          PlainName(c.properties[i].name) && LineRun(c.properties[i].definition) == |c.properties[i].definition|)
    && (forall i, j | 0 <= i < j < |c.properties| :: c.properties[i].name != c.properties[j].name)
    && (forall i | 0 <= i < |c.hubs| ::
          c.hubs[i].0 != "" && Trimmed(c.hubs[i].0) && LineRun(c.hubs[i].0) == |c.hubs[i].0|
          && PlainListing(c.hubs[i].1) && c.hubs[i].1 != [])
    && (forall i, j | 0 <= i < j < |c.hubs| :: c.hubs[i].0 != c.hubs[j].0)
  }

  /** The lines after the hubs leave the result alone: they open with a heading no section has, and so
      do all headings in them. */
  ghost predicate ProseOk(p: Prose) {
    && (forall i | 0 <= i < |p.preamble| :: LineRun(p.preamble[i]) == |p.preamble[i]| && ParseHeading(p.preamble[i]).None?)
    && (forall i | 0 <= i < |p.propertiesIntro| :: Idle(p.propertiesIntro[i]))
    && (forall i | 0 <= i < |p.hubsIntro| :: Idle(p.hubsIntro[i]))
    && p.rest != [] && Foreign(p.rest[0]) && ParseHeading(p.rest[0]).Some?
    && (forall i | 0 <= i < |p.rest| :: Foreign(p.rest[i]))
  }

  /** Not a heading, or a heading of level two that opens no section. */
  predicate Foreign(line: string) {
    && LineRun(line) == |line|
    && (ParseHeading(line).Some? ==>
          ParseHeading(line).value.0 == 2 && SectionOf(LowerAscii(ParseHeading(line).value.1)).NoSection?)
  }

  function StrippedProperties(ds: seq<Declared>): (r: seq<Declared>)
    ensures |r| == |ds| && forall i | 0 <= i < |ds| :: r[i] == ds[i].(definition := Strip(ds[i].definition))
  {
    seq(|ds|, i requires 0 <= i < |ds| => ds[i].(definition := Strip(ds[i].definition)))
  }

  // ---- one bullet ----

  lemma DashShape()
    ensures |EmDash()| == 3 && EmDash()[0] == ' ' && EmDash()[1] == '\U{2014}' && EmDash()[2] == ' '
    ensures IsSpace(' ') && !IsSpace('\U{2014}') && !IsSpace('-') && !IsSpace('#') && IsDash('\U{2014}')
  {
  }

  lemma SpaceBefore(t: string)
    requires Trimmed(t)
    ensures Strip(" " + t) == t
  {
    assert IsSpace(' ');
    hide IsSpace;
    StripPadded(" ", t, "");
    hide Strip;
    assert " " + t == " " + t + "";
  }

  /** A bullet is read back as the text after its marker. */
  lemma BulletText(t: string)
    requires t != "" && Trimmed(t)
    ensures ParseBullet("- " + t) == Some(t) && ParseHeading("- " + t).None?
  {
    DashShape();
    var line := "- " + t;
    assert line[0] == '-' && line[1] == ' ' && line[1..] == " " + t;
    hide IsSpace, Trimmed;
    SpaceBefore(t);
    hide Strip;
    assert TrimLeft(line) == line;
  }

  lemma TicksKept(v: string, s: string)
    requires v != "" && Strip(s) == v && Strip(v) == v && v[0] != '`' && v[|v| - 1] != '`'
    ensures StripTicks(s) == v
  {
    hide Strip;
    assert DropTicksLeft(v) == v && DropTicksRight(v) == v;
  }

  lemma StripTrailing(v: string, c: char)
    requires Trimmed(v) && IsSpace(c)
    ensures Strip(v + [c]) == v
  {
    hide IsSpace;
    StripPadded("", v, [c]);
    hide Strip;
    assert "" + v + [c] == v + [c];
  }

  /** A plain value without a definition is read back as it is. */
  lemma SplitBare(v: string)
    requires PlainValue(v)
    ensures SplitValue(v) == (v, "")
  {
    hide IsSpace, IsDash, StripTicks;
    assert forall i: nat | i < |v| :: v[i] != ':' && !LoneDash(v, i);
    forall i: nat | i < |v| ensures !SeparatorAt(v, i) { assert !LoneDash(v, i); }
    StripTrimmed(v);
    hide Strip;
    TicksKept(v, v);
  }

  /** A plain value is split off exactly at the dash that was printed after it. */
  lemma SplitDefined(v: string, d: string)
    requires PlainValue(v) && d != "" && Trimmed(d)
    ensures SplitValue(v + (EmDash() + d)) == (v, d)
  {
    DashShape();
    var text := v + (EmDash() + d);
    var n := |v| + 1;
    assert text[|v|] == ' ' && text[n] == '\U{2014}' && text[n + 1] == ' ';
    forall i: nat | i < n ensures !SeparatorAt(text, i) { NoSeparatorBefore(v, d, i); }
    assert SeparatorAt(text, n);
    FirstIs(text, n);
    assert text[..n] == v + [' '] && text[n + 1..] == " " + d;
    hide IsSpace, IsDash, SeparatorAt, EmDash;
    StripTicksOf(v);
    SpaceBefore(d);
  }

  lemma StripTicksOf(v: string)
    requires PlainValue(v)
    ensures StripTicks(v + [' ']) == v
  {
    assert IsSpace(' ');
    hide IsSpace, LoneDash, LineRun;
    StripTrailing(v, ' ');
    StripTrimmed(v);
    hide Strip;
    TicksKept(v, v + [' ']);
  }

  lemma FirstIs(s: string, n: nat)
    requires n < |s| && SeparatorAt(s, n) && forall i: nat | i < n :: !SeparatorAt(s, i)
    ensures FirstSeparator(s, 0) == n
  {
  }

  lemma NoSeparatorBefore(v: string, d: string, i: nat)
    requires PlainValue(v) && i < |v| + 1
    ensures !SeparatorAt(v + (EmDash() + d), i)
  {
    DashShape();
    var text := v + (EmDash() + d);
    if i < |v| {
      assert text[i] == v[i] && (i > 0 ==> text[i - 1] == v[i - 1]) && (i + 1 < |v| ==> text[i + 1] == v[i + 1]);
      assert v[i] != ':' && !LoneDash(v, i);
    } else {
      assert text[i] == ' ';
    }
  }

  /** A printed value line is read back as its value and its stripped definition. */
  lemma ValueLineReadsBack(v: string, d: string)
    requires PlainValue(v)
    ensures var line := ValueLine(v, d);
            && ParseHeading(line).None? && ParseBullet(line).Some?
            && SplitValue(ParseBullet(line).value) == (v, Strip(d))
  {
    hide IsSpace, LoneDash, EmDash, SplitValue, ParseBullet, ParseHeading;
    StripIsTrimmed(d);
    if Strip(d) != "" {
      SplitDefined(v, Strip(d));
      DefinedTrimmed(v, Strip(d));
      BulletText(v + (EmDash() + Strip(d)));
    } else {
      SplitBare(v);
      BulletText(v);
    }
  }

  lemma DefinedTrimmed(v: string, d: string)
    requires v != "" && d != "" && Trimmed(v) && Trimmed(d)
    ensures Trimmed(v + (EmDash() + d))
  {
    hide IsSpace;
  }

  // ---- one property ----

  lemma ListLabelPlain(name: string)
    requires PlainName(name)
    ensures PlainValue(name + " (list)")
  {
    var label_ := name + " (list)";
    assert !IsSpace(')') && forall i | 0 <= i < |" (list)"| :: !IsBreak(" (list)"[i]) && " (list)"[i] != ':' && !IsDash(" (list)"[i]);
    LineRunShape(name);
    hide IsSpace, IsBreak, LineRun;
    forall i | 0 <= i < |label_| ensures label_[i] != ':' && !LoneDash(label_, i) && !IsBreak(label_[i]) {
      if i < |name| {
        assert label_[i] == name[i] && !LoneDash(name, i) && (i > 0 ==> label_[i - 1] == name[i - 1]);
        assert i + 1 < |name| ==> label_[i + 1] == name[i + 1];
      } else {
        assert label_[i] == " (list)"[i - |name|];
      }
    }
    LineRunIs(label_, |label_|);
  }

  lemma TrimmedRightStays(s: string)
    requires s != "" && Trimmed(s)
    ensures TrimRight(s) == s
  {
  }

  lemma TypeOfName(name: string)
    requires PlainName(name)
    ensures SplitType(name) == (name, false)
  {
    hide IsSpace, LoneDash, EndsWith, LowerAscii;
    TrimmedRightStays(name);
    StripTrimmed(name);
  }

  lemma MarkedAsList(label_: string)
    requires EndsWith(LowerAscii(label_), "(list)") && TrimRight(label_) == label_
    ensures |label_| >= 6 && SplitType(label_) == (Strip(label_[..|label_| - 6]), true)
  {
    hide IsSpace;
  }

  lemma LabelEnd(name: string)
    ensures EndsWith(LowerAscii(name + " (list)"), "(list)")
    ensures (name + " (list)")[..|name| + 1] == name + [' ']
  {
    assert LowerAscii(name + " (list)")[|name| + 1..] == "(list)";
  }

  lemma TypeOfList(name: string)
    requires PlainName(name)
    ensures SplitType(name + " (list)") == (name, true)
  {
    assert PlainValue(name) && IsSpace(' ');
    hide *;
    var label_ := name + " (list)";
    ListLabelPlain(name);
    PlainTrimmed(label_);
    TrimmedRightStays(label_);
    LabelEnd(name);
    MarkedAsList(label_);
    PlainTrimmed(name);
    StripTrailing(name, ' ');
    assert |label_| - 6 == |name| + 1;
  }

  lemma PlainTrimmed(v: string)
    requires PlainValue(v)
    ensures Trimmed(v) && v != "" && LineRun(v) == |v|
  {
  }

  /** A printed property line is read back as the name, its type and its stripped definition. */
  lemma PropertyLineReadsBack(d: Declared)
    requires PlainName(d.name)
    ensures var line := ValueLine(PropertyLabel(d), d.definition);
            && ParseHeading(line).None? && ParseBullet(line).Some?
            && SplitValue(ParseBullet(line).value).1 == Strip(d.definition) && SplitValue(ParseBullet(line).value).0 != ""
            && SplitType(SplitValue(ParseBullet(line).value).0) == (d.name, d.isList)
  {
    hide ParseHeading, ParseBullet, SplitValue, SplitType, ValueLine, EndsWith, LoneDash, IsSpace;
    if d.isList {
      ListLabelPlain(d.name);
      ValueLineReadsBack(d.name + " (list)", d.definition);
      TypeOfList(d.name);
    } else {
      ValueLineReadsBack(d.name, d.definition);
      TypeOfName(d.name);
    }
  }

  // ---- runs of lines ----

  lemma {:induction false} TakeConcat(r: Reader, a: seq<string>, b: seq<string>)
    ensures TakeLines(r, a + b) == TakeLines(TakeLines(r, a), b)
    decreases a
  {
    hide TakeLine;
    if a == [] {
      assert a + b == b;
    } else {
      assert (a + b)[1..] == a[1..] + b;
      TakeConcat(TakeLine(r, a[0]), a[1..], b);
    }
  }

  lemma TakeOne(r: Reader, line: string)
    ensures TakeLines(r, [line]) == TakeLine(r, line)
  {
    hide TakeLine;
    assert [line][1..] == [];
  }

  lemma TakeSnoc(r: Reader, a: seq<string>, line: string)
    ensures TakeLines(r, a + [line]) == TakeLine(TakeLines(r, a), line)
  {
    hide TakeLine;
    TakeConcat(r, a, [line]);
    TakeOne(TakeLines(r, a), line);
  }

  lemma {:induction false} TakeIdle(r: Reader, lines: seq<string>)
    requires forall i | 0 <= i < |lines| :: Idle(lines[i])
    ensures TakeLines(r, lines) == r
  {
    hide ParseHeading, ParseBullet;
    if lines != [] { TakeIdle(r, lines[1..]); }
  }

  lemma UnbrokenAscii(s: string)
    requires forall i | 0 <= i < |s| :: ' ' <= s[i] <= '~'
    ensures LineRun(s) == |s|
  {
    LineRunIs(s, |s|);
  }

  lemma IdleLine(line: string)
    requires line != "" && line[0] != '#' && line[0] != '-' && line[0] != '*' && !IsSpace(line[0]) && LineRun(line) == |line|
    ensures Idle(line)
  {
    hide IsSpace, LineRun;
    assert TrimLeft(line) == line;
  }

  lemma EmptyIdle()
    ensures Idle("") && Idle(NoHubsLine())
  {
    assert !IsSpace('_');
    hide IsSpace, ParseHeading, ParseBullet;
    UnbrokenAscii(NoHubsLine());
    IdleLine(NoHubsLine());
    BlankIdle();
  }

  lemma BlankIdle()
    ensures Idle("")
  {
  }

  lemma TakeBulletLine(r: Reader, line: string)
    requires !r.section.NoSection? && ParseHeading(line).None? && ParseBullet(line).Some?
    ensures TakeLine(r, line) == TakeBullet(r, ParseBullet(line).value)
  {
    hide ParseHeading, ParseBullet, TakeBullet;
  }

  /** A printed value line sets exactly its value. */
  lemma TakeValueLine(r: Reader, k: Kind, v: string, d: string)
    requires r.section == ValueSection(k) && PlainValue(v)
    ensures TakeLine(r, ValueLine(v, d)) == r.(values := r.values[k := SetIn(r.Read(k), v, Strip(d))])
  {
    PlainNonEmpty(v);
    ValueLineReadsBack(v, d);
    TakeBulletLine(r, ValueLine(v, d));
    hide ParseHeading, ParseBullet, SplitValue, ValueLine, PlainValue, SetIn, Strip, TakeLine;
  }

  /** Reading the printed values of a section adds exactly them. */
  lemma {:induction false} TakeValues(r: Reader, k: Kind, l: Listing)
    requires r.section == ValueSection(k) && k !in r.values && PlainListing(l)
    ensures TakeLines(r, ValueLines(l)) == if l == [] then r else r.(values := r.values[k := Stripped(l)])
  {
    hide TakeLine, ValueLine, PlainListing, PlainValue, Strip, SetIn;
    if l != [] {
      var m, last := l[..|l| - 1], l[|l| - 1];
      PlainPrefix(l);
      TakeValues(r, k, m);
      assert ValueLines(l) == ValueLines(m) + [ValueLine(last.0, last.1)];
      TakeSnoc(r, ValueLines(m), ValueLine(last.0, last.1));
      TakeValueLine(TakeLines(r, ValueLines(m)), k, last.0, last.1);
      SetsNew(r, k, l);
    }
  }

  lemma SetsNew(r: Reader, k: Kind, l: Listing)
    requires PlainListing(l) && l != [] && k !in r.values
    ensures var m, last := l[..|l| - 1], l[|l| - 1];
            var before := if m == [] then r else r.(values := r.values[k := Stripped(m)]);
            SetIn(before.Read(k), last.0, Strip(last.1)) == Stripped(l)
  {
    NotYetIn(l);
    hide Strip, PlainListing;
    var m, last := l[..|l| - 1], l[|l| - 1];
    assert Stripped(l) == Stripped(m) + [(last.0, Strip(last.1))];
  }

  lemma PlainNonEmpty(v: string)
    requires PlainValue(v)
    ensures v != ""
  {
  }

  lemma PlainPrefix(l: Listing)
    requires PlainListing(l) && l != []
    ensures PlainListing(l[..|l| - 1]) && PlainValue(l[|l| - 1].0)
  {
    hide PlainValue, LineRun;
    var m := l[..|l| - 1];
    assert Values(m) == Values(l)[..|m|];
  }

  lemma NotYetIn(l: Listing)
    requires PlainListing(l) && l != []
    ensures l[|l| - 1].0 !in Values(Stripped(l[..|l| - 1]))
  {
    hide PlainValue, LineRun;
    var m := l[..|l| - 1];
    forall i | 0 <= i < |m| ensures Values(Stripped(m))[i] != l[|l| - 1].0 {
      assert Values(l)[i] == m[i].0 && Values(l)[|l| - 1] == l[|l| - 1].0;
    }
  }

  /** Reading the printed properties adds exactly them. */
  lemma {:induction false} TakeProperties(r: Reader, ds: seq<Declared>)
    requires r.section.PropertySection? && r.properties == []
    requires forall i | 0 <= i < |ds| :: PlainName(ds[i].name)
    requires forall i, j | 0 <= i < j < |ds| :: ds[i].name != ds[j].name
    ensures TakeLines(r, PropertyLines(ds)) == r.(properties := StrippedProperties(ds))
  {
    hide ParseHeading, ParseBullet, SplitValue, SplitType, ValueLine, PlainName, PropertyLabel, SetProperty, Strip;
    if ds == [] {
      assert StrippedProperties(ds) == [];
    } else {
      var m, last := ds[..|ds| - 1], ds[|ds| - 1];
      TakeProperties(r, m);
      var line := ValueLine(PropertyLabel(last), last.definition);
      assert PropertyLines(ds) == PropertyLines(m) + [line];
      TakeSnoc(r, PropertyLines(m), line);
      PropertyLineReadsBack(last);
      NameNonEmpty(last.name);
      SetNew(StrippedProperties(m), last.(definition := Strip(last.definition)));
      assert StrippedProperties(ds) == StrippedProperties(m) + [last.(definition := Strip(last.definition))];
    }
  }

  lemma NameNonEmpty(name: string)
    requires PlainName(name)
    ensures name != ""
  {
  }

  lemma {:induction false} SetNew(ds: seq<Declared>, d: Declared)
    requires forall i | 0 <= i < |ds| :: ds[i].name != d.name
    ensures SetProperty(ds, d) == ds + [d]
  {
    if ds != [] {
      SetNew(ds[1..], d);
      assert ds == [ds[0]] + ds[1..];
    }
  }

  // ---- hubs ----

  /** A heading of two or three marks, a blank and a text. */
  lemma HeadingShape(line: string, level: nat, text: string)
    requires level >= 2 && |line| > level && line[0] == '#' && line[1] == '#' && line[level] == ' ' && text != ""
    requires (level == 2 && line[2] != '#') || (level == 3 && line[2] == '#')
    requires Strip(line[level..]) == text
    ensures ParseHeading(line) == Some((level, text))
  {
    assert IsSpace(' ');
    hide IsSpace, Strip;
  }

  lemma MarksTwo(text: string)
    ensures var line := "## " + text; |line| > 2 && line[0] == '#' && line[1] == '#' && line[2] == ' ' && line[2..] == " " + text
  {
    hide *;
  }

  lemma MarksThree(text: string)
    ensures var line := "### " + text;
            |line| > 3 && line[0] == '#' && line[1] == '#' && line[2] == '#' && line[3] == ' ' && line[3..] == " " + text
  {
    hide *;
  }

  lemma HeadingTwo(text: string)
    requires text != "" && Trimmed(text)
    ensures ParseHeading("## " + text) == Some((2, text))
  {
    hide *;
    SpaceBefore(text);
    MarksTwo(text);
    HeadingShape("## " + text, 2, text);
  }

  lemma HeadingThree(text: string)
    requires text != "" && Trimmed(text)
    ensures ParseHeading("### " + text) == Some((3, text))
  {
    hide *;
    SpaceBefore(text);
    MarksThree(text);
    HeadingShape("### " + text, 3, text);
  }

  lemma TakeHubLine(r: Reader, name: string, d: string)
    requires r.section.HubsSection? && r.hubDomain != "" && PlainValue(name)
    ensures TakeLine(r, ValueLine(name, d))
         == r.(hubs := r.hubs[r.hubDomain := HubsOf(r.hubs, r.hubDomain) + [(name, Strip(d))]])
  {
    PlainNonEmpty(name);
    ValueLineReadsBack(name, d);
    TakeBulletLine(r, ValueLine(name, d));
    hide ParseHeading, ParseBullet, SplitValue, ValueLine, PlainValue, Strip, TakeLine, HubsOf;
  }

  /** Reading the printed hubs of a domain adds exactly them. */
  lemma {:induction false} TakeHubs(r: Reader, l: Listing)
    requires r.section.HubsSection? && r.hubDomain != "" && r.hubDomain !in r.hubs && PlainListing(l)
    ensures TakeLines(r, ValueLines(l)) == if l == [] then r else r.(hubs := r.hubs[r.hubDomain := Stripped(l)])
  {
    hide TakeLine, ValueLine, PlainListing, PlainValue, Strip;
    if l != [] {
      var m, last := l[..|l| - 1], l[|l| - 1];
      PlainPrefix(l);
      TakeHubs(r, m);
      assert ValueLines(l) == ValueLines(m) + [ValueLine(last.0, last.1)];
      TakeSnoc(r, ValueLines(m), ValueLine(last.0, last.1));
      TakeHubLine(TakeLines(r, ValueLines(m)), last.0, last.1);
      assert Stripped(l) == Stripped(m) + [(last.0, Strip(last.1))];
    }
  }

  /** The hubs of the first domains. */
  function HubsTo(hubs: seq<(string, Listing)>, k: nat): map<string, Listing>
    requires k <= |hubs|
  {
    if k == 0 then map[] else HubsTo(hubs, k - 1)[hubs[k - 1].0 := Stripped(hubs[k - 1].1)]
  }

  lemma {:induction false} HubsToKeys(hubs: seq<(string, Listing)>, k: nat, d: string)
    requires k <= |hubs|
    ensures d in HubsTo(hubs, k) <==> exists i | 0 <= i < k :: hubs[i].0 == d
  {
    if k > 0 { HubsToKeys(hubs, k - 1, d); }
  }

  predicate HubOk(h: (string, Listing)) {
    h.0 != "" && Trimmed(h.0) && LineRun(h.0) == |h.0|
  }

  /** A line followed by a blank one. */
  lemma TakeWithBlank(r: Reader, line: string)
    ensures TakeLines(r, [line, ""]) == TakeLine(r, line)
  {
    hide TakeLine;
    TakeOne(r, line);
    TakeSnoc(r, [line], "");
    TakeBlank(TakeLine(r, line));
    assert [line] + [""] == [line, ""];
  }

  lemma TakeThenBlank(r: Reader, lines: seq<string>)
    ensures TakeLines(r, lines + [""]) == TakeLines(r, lines)
  {
    hide TakeLine;
    TakeSnoc(r, lines, "");
    TakeBlank(TakeLines(r, lines));
  }

  lemma DomainOpens(r: Reader, domain: string)
    requires r.section.HubsSection? && domain != "" && Trimmed(domain)
    ensures TakeLine(r, "### " + domain) == r.(hubDomain := domain)
  {
    hide Trimmed;
    HeadingThree(domain);
    TakeHeadingLine(r, "### " + domain, 3, domain);
    hide TakeLine, ParseHeading, SectionOf, LowerAscii;
  }

  /** One domain: its heading, a blank line, its hubs, a blank line. */
  lemma TakeDomain(r: Reader, h: (string, Listing))
    requires r.section.HubsSection? && HubOk(h) && h.0 !in r.hubs && PlainListing(h.1) && h.1 != []
    ensures TakeLines(r, ["### " + h.0, ""] + (ValueLines(h.1) + [""]))
         == r.(hubDomain := h.0, hubs := r.hubs[h.0 := Stripped(h.1)])
  {
    DomainOpens(r, h.0);
    assert h.0 != "";
    hide *;
    var ready := r.(hubDomain := h.0);
    TakeConcat(r, ["### " + h.0, ""], ValueLines(h.1) + [""]);
    TakeWithBlank(r, "### " + h.0);
    TakeHubs(ready, h.1);
    TakeThenBlank(ready, ValueLines(h.1));
  }

  lemma TakeBlank(r: Reader)
    ensures TakeLine(r, "") == r
  {
    BlankIdle();
    hide ParseHeading, ParseBullet;
  }

  lemma TakeHeadingLine(r: Reader, line: string, level: nat, text: string)
    requires ParseHeading(line) == Some((level, text))
    ensures TakeLine(r, line) == TakeHeading(r, level, text)
  {
    hide ParseHeading, ParseBullet, TakeHeading;
  }

  /** Domain after domain. */
  lemma {:induction false} TakeDomains(r: Reader, hubs: seq<(string, Listing)>, k: nat)
    requires r.section.HubsSection? && k <= |hubs| && r.hubs == HubsTo(hubs, k)
    requires forall i | 0 <= i < |hubs| :: HubOk(hubs[i]) && PlainListing(hubs[i].1) && hubs[i].1 != []
    requires forall i, j | 0 <= i < j < |hubs| :: hubs[i].0 != hubs[j].0
    ensures var after := TakeLines(r, HubLines(hubs[k..]));
            after.hubs == HubsTo(hubs, |hubs|) && after == r.(hubDomain := after.hubDomain, hubs := after.hubs)
    decreases |hubs| - k
  {
    hide TakeLine, PlainListing, HubOk, ValueLines;
    if k == |hubs| {
      assert hubs[k..] == [];
    } else {
      var h := hubs[k];
      HubsToKeys(hubs, k, h.0);
      var block := ["### " + h.0, ""] + (ValueLines(h.1) + [""]);
      assert hubs[k..][0] == h && hubs[k..][1..] == hubs[k + 1..];
      DomainBlock(hubs[k..]);
      TakeConcat(r, block, HubLines(hubs[k + 1..]));
      TakeDomain(r, h);
      TakeDomains(TakeLines(r, block), hubs, k + 1);
    }
  }

  lemma DomainBlock(hubs: seq<(string, Listing)>)
    requires hubs != []
    ensures HubLines(hubs) == ["### " + hubs[0].0, ""] + (ValueLines(hubs[0].1) + [""]) + HubLines(hubs[1..])
  {
    hide ValueLines;
    Shuffle(["### " + hubs[0].0, ""], ValueLines(hubs[0].1), [""], HubLines(hubs[1..]));
  }

  lemma Shuffle(a: seq<string>, b: seq<string>, c: seq<string>, d: seq<string>)
    ensures a + (b + (c + d)) == a + (b + c) + d
  {
    assert b + (c + d) == b + c + d;
  }

  // ---- sections ----

  function KindTitle(k: Kind): string {
    match k
    case NoteTypes => "Note types"
    case Of(Status) => "Status"
    case Of(Domain) => "Domains"
    case Of(SourceKind) => "Source kinds"
    case Of(CaptureType) => "Capture types"
  }

  lemma TitleSection(k: Kind)
    ensures SectionOf(LowerAscii(KindTitle(k))) == ValueSection(k)
  {
    match k
    case NoteTypes => assert LowerAscii("Note types") == "note types";
    case Of(Status) => assert LowerAscii("Status") == "status";
    case Of(Domain) => assert LowerAscii("Domains") == "domains";
    case Of(SourceKind) => assert LowerAscii("Source kinds") == "source kinds";
    case Of(CaptureType) => assert LowerAscii("Capture types") == "capture types";
  }

  lemma TitleHeads(k: Kind)
    ensures KindHeading(k) == "## " + KindTitle(k)
  {
    match k
    case NoteTypes => assert "## Note types" == "## " + "Note types";
    case Of(Status) => assert "## Status" == "## " + "Status";
    case Of(Domain) => assert "## Domains" == "## " + "Domains";
    case Of(SourceKind) => assert "## Source kinds" == "## " + "Source kinds";
    case Of(CaptureType) => assert "## Capture types" == "## " + "Capture types";
  }

  lemma LettersTrimmed(s: string)
    requires s != "" && 'A' <= s[0] <= 'Z' && 'a' <= s[|s| - 1] <= 'z'
    ensures Trimmed(s)
  {
  }

  lemma TitleEnds(k: Kind)
    ensures var s := KindTitle(k); s != "" && 'A' <= s[0] <= 'Z' && 'a' <= s[|s| - 1] <= 'z'
  {
  }

  lemma TitleShape(k: Kind)
    ensures KindTitle(k) != "" && Trimmed(KindTitle(k)) && KindHeading(k) == "## " + KindTitle(k)
  {
    hide *;
    TitleEnds(k);
    LettersTrimmed(KindTitle(k));
    TitleHeads(k);
  }

  /** A heading outside the hubs' domains opens its section. */
  lemma SectionOpens(r: Reader, title: string, section: Section)
    requires title != "" && Trimmed(title) && SectionOf(LowerAscii(title)) == section
    ensures TakeLine(r, "## " + title) == r.(section := section, hubDomain := "")
  {
    hide Trimmed;
    HeadingTwo(title);
    TakeHeadingLine(r, "## " + title, 2, title);
    hide TakeLine, ParseHeading, SectionOf, LowerAscii;
  }

  lemma TakeKindHeading(r: Reader, k: Kind)
    ensures TakeLines(r, [KindHeading(k), ""]) == r.(section := ValueSection(k), hubDomain := "")
  {
    hide *;
    TitleShape(k);
    TitleSection(k);
    SectionOpens(r, KindTitle(k), ValueSection(k));
    TakeWithBlank(r, KindHeading(k));
  }

  function AfterKind(r: Reader, k: Kind, l: Listing): Reader {
    var open := r.(section := ValueSection(k), hubDomain := "");
    if l == [] then open else open.(values := open.values[k := Stripped(l)])
  }

  /** One section of controlled values. */
  lemma TakeKind(r: Reader, c: Contents, k: Kind)
    requires PlainListing(c.values(k)) && k !in r.values
    ensures TakeLines(r, KindLines(c, k)) == AfterKind(r, k, c.values(k))
  {
    var l := c.values(k);
    var open := r.(section := ValueSection(k), hubDomain := "");
    hide TakeLine, TakeLines, KindHeading, PlainListing, ValueLines;
    TakeConcat(r, [KindHeading(k), ""], ValueLines(l) + [""]);
    TakeKindHeading(r, k);
    TakeValues(open, k, l);
    TakeThenBlank(open, ValueLines(l));
  }

  lemma OtherTitles()
    ensures SectionOf(LowerAscii("Properties")).PropertySection? && Trimmed("Properties")
    ensures SectionOf(LowerAscii("Topic hubs")).HubsSection? && Trimmed("Topic hubs")
  {
    assert LowerAscii("Properties") == "properties" && LowerAscii("Topic hubs") == "topic hubs";
  }

  lemma PropertiesFine(c: Contents)
    requires ContentsOk(c)
    ensures forall i | 0 <= i < |c.properties| :: PlainName(c.properties[i].name)
    ensures forall i, j | 0 <= i < j < |c.properties| :: c.properties[i].name != c.properties[j].name
  {
    hide PlainListing, LineRun, Trimmed, PlainName;
  }

  lemma IntrosIdle(p: Prose)
    requires ProseOk(p)
    ensures forall i | 0 <= i < |p.propertiesIntro| :: Idle(p.propertiesIntro[i])
    ensures forall i | 0 <= i < |p.hubsIntro| :: Idle(p.hubsIntro[i])
    ensures forall i | 0 <= i < |p.preamble| :: ParseHeading(p.preamble[i]).None?
  {
    hide Idle, Foreign, ParseHeading, LineRun;
  }

  /** The properties section. */
  lemma TakePropertySection(r: Reader, c: Contents, p: Prose)
    requires ContentsOk(c) && ProseOk(p) && r.properties == []
    ensures TakeLines(r, ["## Properties", ""] + (p.propertiesIntro + (PropertyLines(c.properties) + [""])))
         == r.(section := PropertySection, hubDomain := "", properties := StrippedProperties(c.properties))
  {
    hide *;
    OtherTitles();
    PropertiesFine(c);
    IntrosIdle(p);
    assert "## " + "Properties" == "## Properties";
    SectionOpens(r, "Properties", PropertySection);
    TakeWithBlank(r, "## Properties");
    var open := r.(section := PropertySection, hubDomain := "");
    TakeIdle(open, p.propertiesIntro);
    TakeProperties(open, c.properties);
    TakeConcat(r, ["## Properties", ""], p.propertiesIntro + (PropertyLines(c.properties) + [""]));
    TakeConcat(open, p.propertiesIntro, PropertyLines(c.properties) + [""]);
    TakeThenBlank(open, PropertyLines(c.properties));
  }

  lemma HubsFine(c: Contents)
    requires ContentsOk(c)
    ensures forall i | 0 <= i < |c.hubs| :: HubOk(c.hubs[i]) && PlainListing(c.hubs[i].1) && c.hubs[i].1 != []
    ensures forall i, j | 0 <= i < j < |c.hubs| :: c.hubs[i].0 != c.hubs[j].0
  {
    hide PlainListing, LineRun, Trimmed, PlainName;
  }

  lemma HubSectionIs(c: Contents, p: Prose)
    ensures HubSection(c, p)
         == ["## Topic hubs", ""] + (p.hubsIntro + (if c.hubs == [] then [NoHubsLine(), ""] else HubLines(c.hubs)))
  {
  }

  lemma NoHubsYet(hubs: seq<(string, Listing)>)
    ensures HubsTo(hubs, 0) == map[]
  {
  }

  /** The hubs section. */
  lemma TakeHubSection(r: Reader, c: Contents, p: Prose)
    requires ContentsOk(c) && ProseOk(p) && r.hubs == map[]
    ensures var after := TakeLines(r, HubSection(c, p));
            && after.section.HubsSection? && after.properties == r.properties && after.values == r.values
            && after.hubs == HubsTo(c.hubs, |c.hubs|)
  {
    hide *;
    var body := if c.hubs == [] then [NoHubsLine(), ""] else HubLines(c.hubs);
    HubSectionIs(c, p);
    NoHubsYet(c.hubs);
    OtherTitles();
    HubsFine(c);
    IntrosIdle(p);
    assert "## " + "Topic hubs" == "## Topic hubs";
    SectionOpens(r, "Topic hubs", HubsSection);
    TakeWithBlank(r, "## Topic hubs");
    var open := r.(section := HubsSection, hubDomain := "");
    TakeIdle(open, p.hubsIntro);
    TakeConcat(r, ["## Topic hubs", ""], p.hubsIntro + body);
    TakeConcat(open, p.hubsIntro, body);
    if c.hubs == [] {
      EmptyIdle();
      TakeIdle(open, [NoHubsLine(), ""]);
    } else {
      assert c.hubs[0..] == c.hubs;
      TakeDomains(open, c.hubs, 0);
    }
  }

  /** Lines that belong to no section leave the result alone. */
  lemma {:induction false} TakeForeign(r: Reader, lines: seq<string>)
    requires r.section.NoSection? && forall i | 0 <= i < |lines| :: Foreign(lines[i])
    ensures var after := TakeLines(r, lines);
            after.section.NoSection? && after.properties == r.properties && after.values == r.values && after.hubs == r.hubs
    decreases |lines|
  {
    hide ParseHeading, ParseBullet, SectionOf, LowerAscii, LineRun;
    if lines != [] {
      assert Foreign(lines[0]);
      TakeForeign(TakeLine(r, lines[0]), lines[1..]);
    }
  }

  lemma TakeRest(r: Reader, p: Prose)
    requires ProseOk(p)
    ensures var after := TakeLines(r, p.rest);
            after.properties == r.properties && after.values == r.values && after.hubs == r.hubs
  {
    hide ParseHeading, ParseBullet, SectionOf, LowerAscii, LineRun, Idle;
    assert Foreign(p.rest[0]);
    TakeForeign(TakeLine(r, p.rest[0]), p.rest[1..]);
  }

  lemma {:induction false} TakePreamble(r: Reader, lines: seq<string>)
    requires r.section.NoSection? && forall i | 0 <= i < |lines| :: ParseHeading(lines[i]).None?
    ensures TakeLines(r, lines) == r
  {
    hide ParseHeading, ParseBullet;
    if lines != [] { TakePreamble(r, lines[1..]); }
  }

  // ---- the round trip ----

  /** The reader after the five controlled sections. */
  function AfterKinds(r: Reader, c: Contents): Reader {
    AfterKind(AfterKind(AfterKind(AfterKind(AfterKind(r, NoteTypes, c.values(NoteTypes)),
      Of(Status), c.values(Of(Status))), Of(Domain), c.values(Of(Domain))),
      Of(SourceKind), c.values(Of(SourceKind))), Of(CaptureType), c.values(Of(CaptureType)))
  }

  lemma AfterKindReads(r: Reader, k: Kind, l: Listing)
    requires k !in r.values
    ensures var after := AfterKind(r, k, l);
            && after.properties == r.properties && after.hubs == r.hubs
            && (forall j: Kind :: after.Read(j) == if j == k then Stripped(l) else r.Read(j))
            && (forall j: Kind | j in after.values :: j in r.values || j == k)
  {
    assert Stripped([]) == [];
  }

  lemma KindsRead(r: Reader, c: Contents)
    requires r.values == map[]
    ensures var after := AfterKinds(r, c);
            && after.properties == r.properties && after.hubs == r.hubs
            && forall k: Kind :: after.Read(k) == Stripped(c.values(k))
  {
    hide AfterKind, Reader.Read;
    var r1 := AfterKind(r, NoteTypes, c.values(NoteTypes));
    var r2 := AfterKind(r1, Of(Status), c.values(Of(Status)));
    var r3 := AfterKind(r2, Of(Domain), c.values(Of(Domain)));
    var r4 := AfterKind(r3, Of(SourceKind), c.values(Of(SourceKind)));
    AfterKindReads(r, NoteTypes, c.values(NoteTypes));
    AfterKindReads(r1, Of(Status), c.values(Of(Status)));
    AfterKindReads(r2, Of(Domain), c.values(Of(Domain)));
    AfterKindReads(r3, Of(SourceKind), c.values(Of(SourceKind)));
    AfterKindReads(r4, Of(CaptureType), c.values(Of(CaptureType)));
    forall k: Kind ensures AfterKinds(r, c).Read(k) == Stripped(c.values(k)) {
      EveryKind(k);
    }
  }

  lemma EveryKind(k: Kind)
    ensures k in {NoteTypes, Of(Status), Of(Domain), Of(SourceKind), Of(CaptureType)}
  {
    match k case NoteTypes => case Of(f) => match f case Status => case Domain => case SourceKind => case CaptureType =>
  }

  lemma TakeKinds(r: Reader, c: Contents, more: seq<string>)
    requires ContentsOk(c) && r.values == map[]
    ensures TakeLines(r, KindLines(c, NoteTypes) + (KindLines(c, Of(Status)) + (KindLines(c, Of(Domain))
              + (KindLines(c, Of(SourceKind)) + (KindLines(c, Of(CaptureType)) + more)))))
         == TakeLines(AfterKinds(r, c), more)
  {
    assert forall k: Kind :: PlainListing(c.values(k));
    hide TakeLine, KindLines, PlainListing, ContentsOk;
    var r1 := AfterKind(r, NoteTypes, c.values(NoteTypes));
    var r2 := AfterKind(r1, Of(Status), c.values(Of(Status)));
    var r3 := AfterKind(r2, Of(Domain), c.values(Of(Domain)));
    var r4 := AfterKind(r3, Of(SourceKind), c.values(Of(SourceKind)));
    TakeKindThen(r, c, NoteTypes, KindLines(c, Of(Status)) + (KindLines(c, Of(Domain))
                                    + (KindLines(c, Of(SourceKind)) + (KindLines(c, Of(CaptureType)) + more))));
    TakeKindThen(r1, c, Of(Status), KindLines(c, Of(Domain)) + (KindLines(c, Of(SourceKind)) + (KindLines(c, Of(CaptureType)) + more)));
    TakeKindThen(r2, c, Of(Domain), KindLines(c, Of(SourceKind)) + (KindLines(c, Of(CaptureType)) + more));
    TakeKindThen(r3, c, Of(SourceKind), KindLines(c, Of(CaptureType)) + more);
    TakeKindThen(r4, c, Of(CaptureType), more);
  }

  lemma TakeKindThen(r: Reader, c: Contents, k: Kind, more: seq<string>)
    requires PlainListing(c.values(k)) && k !in r.values
    ensures TakeLines(r, KindLines(c, k) + more) == TakeLines(AfterKind(r, k, c.values(k)), more)
  {
    hide KindLines, PlainListing, TakeLine;
    TakeKind(r, c, k);
    TakeConcat(r, KindLines(c, k), more);
  }

  /** Parsing the printed note gives back exactly its properties with their types, its values, its hubs
      by domain, and every definition, stripped. */
  lemma RoundTrip(c: Contents, p: Prose)
    requires ContentsOk(c) && ProseOk(p)
    ensures var r := TakeLines(EMPTY, RenderedLines(c, p));
            && r.properties == StrippedProperties(c.properties)
            && (forall k: Kind :: r.Read(k) == Stripped(c.values(k)))
            && r.hubs == HubsTo(c.hubs, |c.hubs|)
  {
    TakePreamble(EMPTY, p.preamble);
    TakePropertySection(EMPTY, c, p);
    var r1 := EMPTY.(section := PropertySection, hubDomain := "", properties := StrippedProperties(c.properties));
    var hubsOn := HubSection(c, p) + p.rest;
    TakeKinds(r1, c, hubsOn);
    KindsRead(r1, c);
    var r2 := AfterKinds(r1, c);
    TakeHubSection(r2, c, p);
    TakeRest(TakeLines(r2, HubSection(c, p)), p);
    hide TakeLine, ContentsOk, ProseOk, HubSection, KindLines, AfterKinds, PropertyLines;
    TakeConcat(r2, HubSection(c, p), p.rest);
    RenderedAs(c, p);
    var front := ["## Properties", ""] + (p.propertiesIntro + (PropertyLines(c.properties) + [""]));
    var kinds := KindLines(c, NoteTypes) + (KindLines(c, Of(Status)) + (KindLines(c, Of(Domain))
                   + (KindLines(c, Of(SourceKind)) + (KindLines(c, Of(CaptureType)) + hubsOn))));
    TakeConcat(EMPTY, p.preamble, front + kinds);
    TakeConcat(EMPTY, front, kinds);
  }

  lemma RenderedAs(c: Contents, p: Prose)
    ensures RenderedLines(c, p)
         == p.preamble + (["## Properties", ""] + (p.propertiesIntro + (PropertyLines(c.properties) + [""]))
            + (KindLines(c, NoteTypes) + (KindLines(c, Of(Status)) + (KindLines(c, Of(Domain))
               + (KindLines(c, Of(SourceKind)) + (KindLines(c, Of(CaptureType)) + (HubSection(c, p) + p.rest)))))))
  {
    hide PropertyLines, KindLines, HubSection;
    var kinds := KindLines(c, NoteTypes) + (KindLines(c, Of(Status)) + (KindLines(c, Of(Domain))
                   + (KindLines(c, Of(SourceKind)) + (KindLines(c, Of(CaptureType)) + (HubSection(c, p) + p.rest)))));
    Nested(["## Properties", ""], p.propertiesIntro, PropertyLines(c.properties), [""], kinds);
  }

  lemma Nested(a: seq<string>, b: seq<string>, c: seq<string>, d: seq<string>, e: seq<string>)
    ensures a + (b + (c + (d + e))) == a + (b + (c + d)) + e
  {
    assert c + (d + e) == c + d + e;
    assert b + (c + d + e) == b + (c + d) + e;
  }
}
