/** What a schema note says when it is written by hand: the form of its lines, and which line has the
    last word on a value. */
module SchemaNoteLaws {
  import opened Text
  import opened NoteBody
  import opened SchemaSync
  import opened SchemaNote

  // ---- the form of one line ----

  lemma TrimLeftOf(before: string, s: string)
    requires AllSpace(before) && s != "" && !IsSpace(s[0])
    ensures TrimLeft(before + s) == s
  {
    TrimLeftPadded(before, s);
  }

  /** A bullet: white space, a dash or an asterisk, white space, and a text. */
  ghost predicate IsBullet(line: string, text: string, indent: string, mark: char, gap: string, tail: string) {
    && line == indent + ([mark] + (gap + text + tail)) && (mark == '-' || mark == '*')
    && AllSpace(indent) && AllSpace(gap) && AllSpace(tail) && gap != "" && text != "" && Trimmed(text)
  }

  /** A line is read as a bullet with a text exactly when it has that form. */
  lemma BulletReads(line: string, text: string, indent: string, mark: char, gap: string, tail: string)
    requires IsBullet(line, text, indent, mark, gap, tail)
    ensures ParseBullet(line) == Some(text)
  {
    assert !IsSpace('-') && !IsSpace('*') && IsSpace(gap[0]);
    StripPadded(gap, text, tail);
    hide IsSpace, Strip, Trimmed;
    var rest := gap + text + tail;
    TrimLeftOf(indent, [mark] + rest);
    hide TrimLeft;
    assert rest[0] == gap[0];
    assert ([mark] + rest)[1..] == rest;
  }

  lemma BulletForm(line: string) returns (indent: string, mark: char, gap: string, tail: string)
    requires ParseBullet(line).Some?
    ensures IsBullet(line, ParseBullet(line).value, indent, mark, gap, tail)
  {
    indent := TrimLeftShape(line);
    var t := TrimLeft(line);
    mark := t[0];
    gap, tail := StripShape(t[1..]);
    StripIsTrimmed(t[1..]);
    hide TrimLeft, Strip, IsSpace, Trimmed;
    assert t == [mark] + t[1..];
    GapNonEmpty(t[1..], gap, tail);
  }

  lemma GapNonEmpty(s: string, gap: string, tail: string)
    requires s != "" && IsSpace(s[0]) && s == gap + Strip(s) + tail && Strip(s) != ""
    ensures gap != ""
  {
    StripIsTrimmed(s);
    hide Strip, IsSpace;
  }

  /** A heading: two or three number signs, white space, and a text. */
  ghost predicate IsHeading(line: string, level: nat, text: string, gap: string, tail: string) {
    && (level == 2 || level == 3) && line == (if level == 2 then "##" else "###") + (gap + text + tail)
    && AllSpace(gap) && AllSpace(tail) && gap != "" && text != "" && Trimmed(text)
  }

  lemma HeadingReads(line: string, level: nat, text: string, gap: string, tail: string)
    requires IsHeading(line, level, text, gap, tail)
    ensures ParseHeading(line) == Some((level, text))
  {
    assert !IsSpace('#') && IsSpace(gap[0]);
    StripPadded(gap, text, tail);
    hide IsSpace, Strip, Trimmed;
    var rest := gap + text + tail;
    assert rest[0] == gap[0];
    assert line[level..] == rest && line[level] == rest[0];
  }

  lemma HeadingForm(line: string) returns (gap: string, tail: string)
    requires ParseHeading(line).Some?
    ensures IsHeading(line, ParseHeading(line).value.0, ParseHeading(line).value.1, gap, tail)
  {
    var level := ParseHeading(line).value.0;
    gap, tail := StripShape(line[level..]);
    StripIsTrimmed(line[level..]);
    hide IsSpace, Strip, Trimmed;
    GapNonEmpty(line[level..], gap, tail);
    assert line == line[..level] + line[level..];
    assert line[..level] == if level == 2 then "##" else "###";
  }

  /** A line is a bullet with a text, or a heading of a level with a text, exactly when it has the form. */
  lemma LineIff(line: string, text: string, level: nat)
    ensures ParseBullet(line) == Some(text) <==> exists indent, mark, gap, tail :: IsBullet(line, text, indent, mark, gap, tail)
    ensures ParseHeading(line) == Some((level, text)) <==> exists gap, tail :: IsHeading(line, level, text, gap, tail)
  {
    hide IsBullet, IsHeading, ParseBullet, ParseHeading;
    if ParseBullet(line) == Some(text) {
      var indent, mark, gap, tail := BulletForm(line);
      assert IsBullet(line, text, indent, mark, gap, tail);
    }
    if indent, mark, gap, tail :| IsBullet(line, text, indent, mark, gap, tail) { BulletReads(line, text, indent, mark, gap, tail); }
    if ParseHeading(line) == Some((level, text)) {
      var gap, tail := HeadingForm(line);
      assert IsHeading(line, level, text, gap, tail);
    }
    if gap, tail :| IsHeading(line, level, text, gap, tail) { HeadingReads(line, level, text, gap, tail); }
  }

  // ---- value and definition ----

  /** A colon, or one of three dashes with white space on both sides. */
  predicate IsSeparator(left: string, c: char, right: string) {
    && AllSpace(left) && AllSpace(right)
    && (c == ':' || ((c == '-' || c == '\U{2013}' || c == '\U{2014}') && left != "" && right != ""))
  }

  /** Any number of back-ticks. */
  predicate AllTicks(s: string) {
    forall i | 0 <= i < |s| :: s[i] == '`'
  }

  lemma {:induction false} DropTicks(ticks: string, s: string, more: string)
    requires AllTicks(ticks) && AllTicks(more) && s != "" && s[0] != '`' && s[|s| - 1] != '`'
    ensures DropTicksRight(DropTicksLeft(ticks + s + more)) == s
  {
    if ticks != "" {
      assert (ticks + s + more)[1..] == ticks[1..] + s + more;
      DropTicks(ticks[1..], s, more);
    } else if more != "" {
      var m := more[..|more| - 1];
      assert ticks + s + more == s + more && ticks + s + m == s + m;
      assert DropTicksLeft(s + more) == s + more && DropTicksLeft(s + m) == s + m;
      assert (s + more)[..|s + more| - 1] == s + m;
      DropTicks(ticks, s, m);
    } else {
      assert ticks + s + more == s;
    }
  }

  lemma Unquoted(ticks: string, v: string, more: string, after: string)
    requires AllTicks(ticks) && AllTicks(more) && AllSpace(after) && PlainValue(v)
    ensures StripTicks(ticks + v + more + after) == v
  {
    PlainTrimmed(v);
    var core := ticks + v + more;
    assert Trimmed(core) by { assert !IsSpace('`'); }
    hide IsSpace, LoneDash, LineRun;
    StripPadded("", core, after);
    assert "" + core + after == ticks + v + more + after;
    StripTrimmed(v);
    hide Strip, Trimmed;
    DropTicks(ticks, v, more);
  }

  lemma NoneInside(ticks: string, v: string, more: string, left: string, rest: string, i: nat)
    requires AllTicks(ticks) && AllTicks(more) && AllSpace(left) && PlainValue(v)
    requires i < |ticks + v + more + left| && (rest != "" && (left == "" ==> !IsSpace(rest[0])))
    requires forall j | 0 <= j < |left| :: left[j] != ':' && !IsDash(left[j])
    ensures !SeparatorAt(ticks + v + more + left + rest, i)
  {
    assert !IsSpace('`') && !IsDash('`');
    var text := ticks + v + more + left + rest;
    hide IsSpace, IsDash, LineRun;
    var a := |ticks|;
    if a <= i < a + |v| {
      var k := i - a;
      assert text[i] == v[k] && v[k] != ':' && !LoneDash(v, k);
      assert k > 0 ==> text[i - 1] == v[k - 1];
      assert k == 0 && i > 0 ==> text[i - 1] == ticks[i - 1];
      assert k + 1 < |v| ==> text[i + 1] == v[k + 1];
    } else if i < a {
      assert text[i] == ticks[i];
    } else if i < a + |v| + |more| {
      assert text[i] == more[i - a - |v|];
    } else {
      assert text[i] == left[i - a - |v| - |more|];
    }
  }

  lemma SpacesSeparateNothing(left: string)
    requires AllSpace(left)
    ensures forall j | 0 <= j < |left| :: left[j] != ':' && !IsDash(left[j])
  {
  }

  /** A plain value, in back-ticks or not, and after it any separator and any definition: it is split at
      that separator, whatever the definition holds. */
  lemma HandWrittenSplits(ticks: string, v: string, more: string, left: string, c: char, right: string, d: string)
    requires AllTicks(ticks) && AllTicks(more) && PlainValue(v) && IsSeparator(left, c, right)
    ensures SplitValue(ticks + v + more + left + ([c] + (right + d))) == (v, Strip(d))
  {
    var front, rest := ticks + v + more + left, [c] + (right + d);
    var text, n := front + rest, |front|;
    SpacesSeparateNothing(left);
    assert !IsSpace(':') && !IsSpace('-') && !IsSpace('\U{2013}') && !IsSpace('\U{2014}');
    forall i: nat | i < n ensures !SeparatorAt(text, i) { NoneInside(ticks, v, more, left, rest, i); }
    assert SeparatorAt(text, n) by {
      assert text[n] == c;
      if c != ':' { assert text[n - 1] == left[|left| - 1] && text[n + 1] == right[0]; }
    }
    FirstIs(text, n);
    assert text[..n] == front && text[n + 1..] == right + d;
    hide IsSpace, IsDash, SeparatorAt, PlainValue;
    Unquoted(ticks, v, more, left);
    StripAfter(right, d);
  }

  lemma StripAfter(right: string, d: string)
    requires AllSpace(right)
    ensures Strip(right + d) == Strip(d)
  {
    var before, after := StripShape(d);
    hide IsSpace;
    var core := Strip(d);
    assert Trimmed(core);
    StripPadded(right + before, core, after);
    hide Strip;
    assert (right + before) + core + after == right + d;
  }

  // ---- headings ----

  /** The headings of a section, in lower case: singular and plural, and with a hyphen for the space. */
  predicate Titles(s: SchemaNote.Section, heading: string) {
    match s
    case NoSection => false
    case PropertySection => heading in {"property", "properties"}
    case HubsSection => heading in {"topic hub", "topic hubs"}
    case ValueSection(NoteTypes) => heading in {"note type", "note types", "note-types"}
    case ValueSection(Of(Status)) => heading in {"status", "statuses"}
    case ValueSection(Of(Domain)) => heading in {"domain", "domains"}
    case ValueSection(Of(SourceKind)) => heading in {"source kind", "source kinds", "source-kinds"}
    case ValueSection(Of(CaptureType)) => heading in {"capture type", "capture types", "capture-types"}
  }

  lemma TitlesIff(s: SchemaNote.Section, heading: string)
    ensures s != NoSection ==> (SectionOf(heading) == s <==> Titles(s, heading))
  {
  }

  // ---- properties marked as lists ----

  /** The name is followed by a mark in either case. */
  ghost predicate Marked(value: string, name: string, mark: string, tail: string) {
    value == name + mark + tail && (LowerAscii(mark) == "(list)" || LowerAscii(mark) == "(array)") && AllSpace(tail)
  }

  lemma LowerEnd(s: string, n: nat)
    requires n <= |s|
    ensures LowerAscii(s)[n..] == LowerAscii(s[n..])
  {
  }

  lemma MarkedReads(value: string, name: string, mark: string, tail: string)
    requires Marked(value, name, mark, tail)
    ensures SplitType(value) == (Strip(name), true)
  {
    assert !IsSpace(')');
    assert LowerChar(mark[|mark| - 1]) == ')';
    hide IsSpace;
    var t := name + mark;
    TrimRightPadded(t, tail);
    LowerEnd(t, |name|);
    assert t[|name|..] == mark && t[..|name|] == name;
    hide TrimRight, Strip;
    var low := LowerAscii(t);
    assert |low| == |t| && low[|name|..] == LowerAscii(mark);
    if LowerAscii(mark) == "(array)" {
      assert low[|low| - 6..] == LowerAscii(mark)[1..] && LowerAscii(mark)[1] == 'a';
      assert low[|low| - 6..][0] == 'a';
    }
  }

  lemma ListIsMarked(value: string) returns (name: string, mark: string, tail: string)
    requires SplitType(value).1
    ensures Marked(value, name, mark, tail)
  {
    tail := TrimRightShape(value);
    hide IsSpace;
    var t := TrimRight(value);
    var n := if EndsWith(LowerAscii(t), "(list)") then |t| - 6 else |t| - 7;
    name, mark := t[..n], t[n..];
    LowerEnd(t, n);
    assert t == name + mark;
  }

  /** A property is a list exactly when its name is followed by `(list)` or `(array)`. */
  lemma ListIff(value: string)
    ensures SplitType(value).1 <==> exists name, mark, tail :: Marked(value, name, mark, tail)
    ensures forall name, mark, tail | Marked(value, name, mark, tail) :: SplitType(value).0 == Strip(name)
    ensures !SplitType(value).1 ==> SplitType(value).0 == Strip(value)
  {
    hide Marked, LowerAscii, EndsWith, Strip, TrimRight;
    if SplitType(value).1 {
      var name, mark, tail := ListIsMarked(value);
    }
    forall name, mark, tail | Marked(value, name, mark, tail) ensures SplitType(value) == (Strip(name), true) {
      MarkedReads(value, name, mark, tail);
    }
  }

  // ---- the last word ----

  /** The section that the first `n` lines leave open: a heading opens its own, but one of level three
      among the topic hubs names a domain there. */
  function OpenAt(lines: seq<string>, n: nat): SchemaNote.Section
    requires n <= |lines|
  {
    if n == 0 then NoSection
    else match ParseHeading(lines[n - 1])
      case None => OpenAt(lines, n - 1)
      case Some((level, title)) =>
        if level == 3 && OpenAt(lines, n - 1) == HubsSection then HubsSection else SectionOf(LowerAscii(title))
  }

  /** The domain that the first `n` lines leave open, if the hubs are. */
  function DomainAt(lines: seq<string>, n: nat): string
    requires n <= |lines|
  {
    if n == 0 then ""
    else match ParseHeading(lines[n - 1])
      case None => DomainAt(lines, n - 1)
      case Some((level, title)) => if level == 3 && OpenAt(lines, n - 1) == HubsSection then title else ""
  }

  /** Value and definition of a line that is a bullet and not a heading; "" for no value. */
  function Bullet(line: string): (string, string) {
    if ParseHeading(line).None? && ParseBullet(line).Some? then SplitValue(ParseBullet(line).value) else ("", "")
  }

  /** The definition line `i` gives a value in a section. */
  function ValueAt(lines: seq<string>, i: nat, k: Kind, v: string): Option<string>
    requires i < |lines|
  {
    if OpenAt(lines, i) == ValueSection(k) && v != "" && Bullet(lines[i]).0 == v then Some(Bullet(lines[i]).1) else None
  }

  /** What line `i` declares of a property: whether it is a list, and its definition. */
  function PropertyAt(lines: seq<string>, i: nat, name: string): Option<(bool, string)>
    requires i < |lines|
  {
    var (value, definition) := Bullet(lines[i]);
    if OpenAt(lines, i) == PropertySection && value != "" && name != "" && SplitType(value).0 == name
    then Some((SplitType(value).1, definition)) else None
  }

  /** The hub line `i` adds to a domain. */
  function HubAt(lines: seq<string>, i: nat, domain: string): Option<(string, string)>
    requires i < |lines|
  {
    if OpenAt(lines, i) == HubsSection && domain != "" && DomainAt(lines, i) == domain && Bullet(lines[i]).0 != ""
    then Some(Bullet(lines[i])) else None
  }

  function LastSome<T>(said: seq<Option<T>>): Option<T> {
    if said == [] then None else if said[|said| - 1].Some? then said[|said| - 1] else LastSome(said[..|said| - 1])
  }

  function Somes<T>(said: seq<Option<T>>): seq<T> {
    if said == [] then []
    else Somes(said[..|said| - 1]) + (match said[|said| - 1] case None => [] case Some(x) => [x])
  }

  ghost predicate LastWord<T(!new)>(said: seq<Option<T>>, i: nat, x: T) {
    i < |said| && said[i] == Some(x) && forall j | i < j < |said| :: said[j] == None
  }

  lemma {:induction false} LastSomeIs<T(!new)>(said: seq<Option<T>>, x: T)
    ensures LastSome(said) == Some(x) <==> exists i: nat :: LastWord(said, i, x)
  {
    if said != [] {
      var n := |said| - 1;
      LastSomeIs(said[..n], x);
      if said[n] == None {
        forall i: nat ensures LastWord(said, i, x) <==> LastWord(said[..n], i, x) {}
      } else if said[n] == Some(x) {
        assert LastWord(said, n, x);
      }
    }
  }

  function ValuesSaid(lines: seq<string>, k: Kind, v: string): (r: seq<Option<string>>)
    ensures |r| == |lines| && forall i | 0 <= i < |r| :: r[i] == ValueAt(lines, i, k, v)
  {
    seq(|lines|, i requires 0 <= i < |lines| => ValueAt(lines, i, k, v))
  }

  function PropertiesSaid(lines: seq<string>, name: string): (r: seq<Option<(bool, string)>>)
    ensures |r| == |lines| && forall i | 0 <= i < |r| :: r[i] == PropertyAt(lines, i, name)
  {
    seq(|lines|, i requires 0 <= i < |lines| => PropertyAt(lines, i, name))
  }

  function HubsSaid(lines: seq<string>, domain: string): (r: seq<Option<(string, string)>>)
    ensures |r| == |lines| && forall i | 0 <= i < |r| :: r[i] == HubAt(lines, i, domain)
  {
    seq(|lines|, i requires 0 <= i < |lines| => HubAt(lines, i, domain))
  }

  lemma {:induction false} PrefixOpens(lines: seq<string>, n: nat, i: nat)
    requires i <= n <= |lines|
    ensures OpenAt(lines[..n], i) == OpenAt(lines, i) && DomainAt(lines[..n], i) == DomainAt(lines, i)
  {
    hide ParseHeading, SectionOf;
    if i > 0 { PrefixOpens(lines, n, i - 1); }
  }

  lemma {:induction false} ReaderOpens(lines: seq<string>)
    ensures TakeLines(EMPTY, lines).section == OpenAt(lines, |lines|)
    ensures TakeLines(EMPTY, lines).hubDomain == DomainAt(lines, |lines|)
  {
    if lines != [] {
      var n := |lines| - 1;
      ReaderOpens(lines[..n]);
      PrefixOpens(lines, n, n);
      assert lines == lines[..n] + [lines[n]];
      TakeSnoc(EMPTY, lines[..n], lines[n]);
      LineOpens(TakeLines(EMPTY, lines[..n]), lines[n]);
      hide ParseHeading, SectionOf, TakeLine, TakeLines;
    }
  }

  lemma LineOpens(r: Reader, line: string)
    ensures var t := TakeLine(r, line);
      match ParseHeading(line)
      case None => t.section == r.section && t.hubDomain == r.hubDomain
      case Some((level, title)) =>
        if level == 3 && r.section == HubsSection then t.section == HubsSection && t.hubDomain == title
        else t.section == SectionOf(LowerAscii(title)) && t.hubDomain == ""
  {
    hide ParseHeading, ParseBullet, SectionOf, SplitValue, SplitType, SetIn, SetProperty, HubsOf;
  }

  lemma SaidBefore(lines: seq<string>, n: nat, k: Kind, v: string)
    requires n <= |lines|
    ensures ValuesSaid(lines, k, v)[..n] == ValuesSaid(lines[..n], k, v)
    ensures PropertiesSaid(lines, v)[..n] == PropertiesSaid(lines[..n], v)
    ensures HubsSaid(lines, v)[..n] == HubsSaid(lines[..n], v)
  {
    forall i: nat | i < n
      ensures ValueAt(lines[..n], i, k, v) == ValueAt(lines, i, k, v) && PropertyAt(lines[..n], i, v) == PropertyAt(lines, i, v)
      ensures HubAt(lines[..n], i, v) == HubAt(lines, i, v)
    {
      PrefixOpens(lines, n, i);
      hide OpenAt, DomainAt, Bullet, SplitType;
    }
    hide ValueAt, PropertyAt, HubAt;
  }

  /** What one more line does. */
  lemma LineSets(r: Reader, line: string, k: Kind)
    ensures var (t, (v, d)) := (TakeLine(r, line), Bullet(line));
      && t.Read(k) == (if r.section == ValueSection(k) && v != "" then SetIn(r.Read(k), v, d) else r.Read(k))
      && t.properties == (if r.section == PropertySection && v != "" && SplitType(v).0 != ""
                          then SetProperty(r.properties, Declared(SplitType(v).0, SplitType(v).1, d)) else r.properties)
      && forall domain :: HubsOf(t.hubs, domain) == HubsOf(r.hubs, domain)
           + if r.section == HubsSection && domain != "" && r.hubDomain == domain && v != "" then [(v, d)] else []
  {
    hide ParseHeading, ParseBullet, SectionOf, SplitValue, SplitType, SetIn, SetProperty;
  }

  lemma SetInIs(l: Listing, value: string, definition: string, v: string, d: string)
    ensures (v, d) in SetIn(l, value, definition) <==> if v == value then d == definition else (v, d) in l
  {
    if value in Values(l) {
      var i :| 0 <= i < |l| && Values(l)[i] == value;
      assert Replaced(l, value, definition)[i] == (value, definition);
      if j :| 0 <= j < |l| && l[j] == (v, d) { assert Replaced(l, value, definition)[j] == if v == value then (value, definition) else (v, d); }
    } else if v == value {
      if j :| 0 <= j < |l| && l[j] == (v, d) { assert Values(l)[j] == v; }
    }
  }

  /** No property is declared twice. */
  ghost predicate Once(ds: seq<Declared>) {
    forall i, j | 0 <= i < j < |ds| :: ds[i].name != ds[j].name
  }

  lemma {:induction false} SetPropertyIs(ds: seq<Declared>, d: Declared, x: Declared)
    requires Once(ds)
    ensures Once(SetProperty(ds, d))
    ensures x in SetProperty(ds, d) <==> if x.name == d.name then x == d else x in ds
  {
    if ds != [] && ds[0].name != d.name {
      var rest := ds[1..];
      assert ds == [ds[0]] + rest;
      SetPropertyIs(rest, d, x);
      forall y: Declared ensures y in SetProperty(rest, d) <==> if y.name == d.name then y == d else y in rest { SetPropertyIs(rest, d, y); }
    } else if ds != [] {
      assert ds == [ds[0]] + ds[1..];
    }
  }

  /** The reader after all lines but the last, and what the last line finds open. */
  lemma OneMore(lines: seq<string>) returns (r: Reader)
    requires lines != []
    ensures var n := |lines| - 1;
      && r == TakeLines(EMPTY, lines[..n]) && TakeLines(EMPTY, lines) == TakeLine(r, lines[n])
      && r.section == OpenAt(lines, n) && r.hubDomain == DomainAt(lines, n)
  {
    var n := |lines| - 1;
    r := TakeLines(EMPTY, lines[..n]);
    ReaderOpens(lines[..n]);
    PrefixOpens(lines, n, n);
    assert lines == lines[..n] + [lines[n]];
    TakeSnoc(EMPTY, lines[..n], lines[n]);
    hide TakeLine, TakeLines, OpenAt, DomainAt;
  }

  lemma {:induction false} ValuesListed(lines: seq<string>, k: Kind, v: string, d: string)
    ensures (v, d) in TakeLines(EMPTY, lines).Read(k) && v != "" <==> LastSome(ValuesSaid(lines, k, v)) == Some(d)
  {
    if lines != [] {
      var n := |lines| - 1;
      ValuesListed(lines[..n], k, v, d);
      SaidBefore(lines, n, k, v);
      var r := OneMore(lines);
      LineSets(r, lines[n], k);
      var (value, definition) := Bullet(lines[n]);
      SetInIs(r.Read(k), value, definition, v, d);
      hide TakeLine, TakeLines, SetIn, Bullet, OpenAt, Reader.Read;
    }
  }

  lemma {:induction false} PropertiesListed(lines: seq<string>, x: Declared)
    ensures Once(TakeLines(EMPTY, lines).properties)
    ensures x in TakeLines(EMPTY, lines).properties && x.name != ""
       <==> LastSome(PropertiesSaid(lines, x.name)) == Some((x.isList, x.definition))
  {
    if lines != [] {
      var n := |lines| - 1;
      PropertiesListed(lines[..n], x);
      SaidBefore(lines, n, NoteTypes, x.name);
      var r := OneMore(lines);
      LineSets(r, lines[n], NoteTypes);
      var (value, definition) := Bullet(lines[n]);
      SetPropertyIs(r.properties, Declared(SplitType(value).0, SplitType(value).1, definition), x);
      hide TakeLine, TakeLines, SetProperty, Bullet, OpenAt, SplitType, Once;
    }
  }

  lemma {:induction false} HubsListed(lines: seq<string>, domain: string)
    ensures domain != "" ==> HubsOf(TakeLines(EMPTY, lines).hubs, domain) == Somes(HubsSaid(lines, domain))
  {
    if lines != [] {
      var n := |lines| - 1;
      HubsListed(lines[..n], domain);
      SaidBefore(lines, n, NoteTypes, domain);
      var r := OneMore(lines);
      LineSets(r, lines[n], NoteTypes);
      hide TakeLine, TakeLines, Bullet, OpenAt, DomainAt, HubsOf;
    }
  }

  /** What a note says, line by line. It lists a value with a definition, and declares a property, if and
      only if the last line for it says so; the hubs of a domain are those of its lines, in order. */
  lemma NoteSays(lines: seq<string>, k: Kind, v: string, d: string, x: Declared, domain: string)
    requires v != "" && x.name != "" && domain != ""
    ensures var r := TakeLines(EMPTY, lines);
      && ((v, d) in r.Read(k) <==> exists i: nat :: LastWord(ValuesSaid(lines, k, v), i, d))
      && (x in r.properties <==> exists i: nat :: LastWord(PropertiesSaid(lines, x.name), i, (x.isList, x.definition)))
      && HubsOf(r.hubs, domain) == Somes(HubsSaid(lines, domain))
  {
    hide *;
    ValuesListed(lines, k, v, d);
    LastSomeIs(ValuesSaid(lines, k, v), d);
    PropertiesListed(lines, x);
    LastSomeIs(PropertiesSaid(lines, x.name), (x.isList, x.definition));
    HubsListed(lines, domain);
  }
}
