/** The editable folder table of the schema note: printed from a layout, and read back as one
    (`schema_note.py`). */
module FolderTable {
  import opened Text
  import opened NoteBody
  import opened MarkdownTable
  import opened VaultPaths
  import opened VaultLayout

  // ---- paths as written in a cell ----

  function KeepNames(parts: seq<string>): seq<string> {
    if parts == [] then []
    else (if parts[0] == "" || parts[0] == "." then [] else [parts[0]]) + KeepNames(parts[1..])
  }

  /** `Path(text)`: its parts, and whether it is absolute. */
  function ParsePath(text: string): RawPath {
    RawPath(text != "" && text[0] == '/', KeepNames(SplitOn(text, '/')))
  }

  lemma {:induction false} KeepNormal(p: Path)
    requires forall i | 0 <= i < |p| :: p[i] != "" && p[i] != "."
    ensures KeepNames(p) == p
  {
    if p != [] {
      KeepNormal(p[1..]);
      assert p == [p[0]] + p[1..];
    }
  }

  lemma {:induction false} SplitJoined(p: Path)
    requires p != [] && forall i | 0 <= i < |p| :: Avoids(p[i], "/")
    ensures SplitOn(Join(p), '/') == p
  {
    hide SplitOn;
    assert '/' !in p[0] by { assert Avoids(p[0], "/"); }
    if |p| == 1 {
      SplitNone(p[0], '/');
    } else {
      SplitJoined(p[1..]);
      SplitAt(p[0], '/', Join(p[1..]));
      assert p[0] + "/" + Join(p[1..]) == p[0] + (['/'] + Join(p[1..]));
      assert p == [p[0]] + p[1..];
    }
  }

  /** A printed path is read back as the same path. */
  lemma PathReadsBack(p: Path)
    requires Normal(p)
    ensures ParsePath(Join(p)) == RawPath(false, p) && Join(p) != ""
  {
    hide SplitOn, KeepNames;
    SplitJoined(p);
    KeepNormal(p);
    assert Join(p)[0] == p[0][0] && p[0][0] !in "/" by { assert Avoids(p[0], "/"); }
  }

  // ---- the rows ----

  function RoleName(r: Role): string {
    match r
    case People => "people" case Contacts => "contacts" case Authors => "authors"
    case Organizations => "organizations" case Work => "work" case Administrative => "administrative"
    case Health => "health" case Home => "home" case Finance => "finance" case Travel => "travel"
    case AdministrativeGeneral => "administrative_general" case Thoughts => "thoughts" case Sources => "sources"
  }

  /** The role a key names, searching the thirteen of them from `i`. */
  function RoleNamedFrom(key: string, i: nat): (r: Option<Role>)
    requires i <= ROLE_COUNT
    ensures r.Some? ==> RoleName(r.value) == key
    ensures r.None? ==> forall k: Role | RoleIndex(k) >= i :: RoleName(k) != key
    decreases ROLE_COUNT - i
  {
    if i == ROLE_COUNT then None
    else if RoleName(RoleAt(i)) == key then Some(RoleAt(i))
    else
      assert forall k: Role | RoleIndex(k) == i :: k == RoleAt(i) by {
        forall k: Role | RoleIndex(k) == i ensures k == RoleAt(i) { RoleIndexInjective(k, RoleAt(i)); }
      }
      RoleNamedFrom(key, i + 1)
  }

  function RoleNamed(key: string): Option<Role> {
    RoleNamedFrom(key, 0)
  }

  /** What the table has said so far: the folder of each root, of each role and domain, and the custom ones. */
  datatype Table = Table(
    system: Option<string>, inbox: Option<string>, dashboards: Option<string>,
    content: seq<(Role, string)>, domains: seq<(string, string)>, customs: seq<(string, string)>)

  const NO_TABLE := Table(None, None, None, [], [], [])

  /** `d[key] = value` on an ordered dictionary. */
  function Put<K(==)>(d: seq<(K, string)>, key: K, value: string): seq<(K, string)> {
    if d == [] then [(key, value)]
    else if d[0].0 == key then [(key, value)] + d[1..]
    else [d[0]] + Put(d[1..], key, value)
  }

  predicate IsRule(cell: string) {
    cell != "" && forall i | 0 <= i < |cell| :: cell[i] == '-' || cell[i] == ':'
  }

  function DomainMark(): string { "domain:" }

  predicate IsDomainKey(key: string) {
    |key| >= 7 && key[..7] == DomainMark()
  }

  /** One row, by its lower-case role key. */
  function TakeRole(t: Table, key: string, folder: string, definition: string): Table {
    if key == "system" || key == "system_dir" then t.(system := Some(folder))
    else if key == "inbox" || key == "inbox_dir" then t.(inbox := Some(folder))
    else if key == "dashboards" || key == "dashboards_dir" then t.(dashboards := Some(folder))
    else if RoleNamed(key).Some? then t.(content := Put(t.content, RoleNamed(key).value, folder))
    else if IsDomainKey(key) then
      if Strip(key[7..]) == "" then t else t.(domains := Put(t.domains, Strip(key[7..]), folder))
    else if key == "custom" then t.(customs := t.customs + [(folder, definition)])
    else t
  }

  function TakeCells(t: Table, cells: seq<string>): Table {
    if |cells| < 2 || LowerAscii(cells[0]) == "role" || IsRule(cells[0]) || cells[1] == "" then t
    else TakeRole(t, LowerAscii(cells[0]), cells[1], if |cells| > 2 then cells[2] else "")
  }

  function TakeRow(t: Table, line: string): Table {
    match Cells(line) case None => t case Some(cells) => TakeCells(t, cells)
  }

  function TakeRows(t: Table, lines: seq<string>): Table
    decreases |lines|
  {
    if lines == [] then t else TakeRows(TakeRow(t, lines[0]), lines[1..])
  }

  // ---- the section ----

  predicate IsSectionLine(line: string) {
    |line| >= 2 && line[0] == '#' && line[1] == '#' && (|line| == 2 || IsSpace(line[2]))
  }

  function FoldersTitle(): string { "folder structure" }

  predicate IsFoldersLine(line: string) {
    |line| > 2 && line[0] == '#' && line[1] == '#' && IsSpace(line[2]) && LowerAscii(Strip(line[2..])) == FoldersTitle()
  }

  function UpToSection(lines: seq<string>): seq<string> {
    if lines == [] || IsSectionLine(lines[0]) then [] else [lines[0]] + UpToSection(lines[1..])
  }

  /** `_section_region` of the folder heading, as lines. */
  function FolderRegion(lines: seq<string>): seq<string> {
    if lines == [] then [] else if IsFoldersLine(lines[0]) then UpToSection(lines[1..]) else FolderRegion(lines[1..])
  }

  /** `parse_folder_structure`. */
  method ParseFolders(lines: seq<string>) returns (t: Table)
    ensures t == TakeRows(NO_TABLE, FolderRegion(lines))
  {
    hide TakeRow, IsFoldersLine, IsSectionLine;
    var i := 0;
    while i < |lines| && !IsFoldersLine(lines[i])
      invariant i <= |lines| && FolderRegion(lines[i..]) == FolderRegion(lines)
    {
      i := i + 1;
    }
    t := NO_TABLE;
    if i == |lines| { return; }
    i := i + 1;
    ghost var region := FolderRegion(lines);
    assert lines[i - 1..][1..] == lines[i..];
    while i < |lines| && !IsSectionLine(lines[i])
      invariant i <= |lines| && TakeRows(t, UpToSection(lines[i..])) == TakeRows(NO_TABLE, region)
    {
      assert UpToSection(lines[i..])[1..] == UpToSection(lines[i + 1..]);
      t := TakeRow(t, lines[i]);
      i := i + 1;
    }
  }

  // ---- from the table to a layout ----

  function ContentEntries(d: seq<(Role, string)>): (r: seq<(ContentKey, RawPath)>)
    ensures |r| == |d| && forall i | 0 <= i < |d| :: r[i] == (Known(d[i].0), ParsePath(d[i].1))
  {
    seq(|d|, i requires 0 <= i < |d| => (Known(d[i].0), ParsePath(d[i].1)))
  }

  function DomainEntries(d: seq<(string, string)>): (r: seq<(string, RawPath)>)
    ensures |r| == |d| && forall i | 0 <= i < |d| :: r[i] == (d[i].0, ParsePath(d[i].1))
  {
    seq(|d|, i requires 0 <= i < |d| => (d[i].0, ParsePath(d[i].1)))
  }

  function CustomEntries(d: seq<(string, string)>): (r: seq<(RawPath, string)>)
    ensures |r| == |d| && forall i | 0 <= i < |d| :: r[i] == (ParsePath(d[i].0), d[i].1)
  {
    seq(|d|, i requires 0 <= i < |d| => (ParsePath(d[i].0), d[i].1))
  }

  function RootFrom(cell: Option<string>, base: Path): RawPath {
    if cell.Some? then ParsePath(cell.value) else RawPath(false, base)
  }

  /** What `folder_paths_from_parsed` asks `build_paths` for. */
  function ToConfig(t: Table, base: Layout): Config {
    Config(RootFrom(t.system, base.system), RootFrom(t.inbox, base.inbox), RootFrom(t.dashboards, base.dashboards),
           ContentEntries(t.content), DomainEntries(t.domains), CustomEntries(t.customs))
  }

  /** Equality of layouts: the domain folders are a dictionary, so their order does not matter. */
  predicate SameLayout(l: Layout, m: Layout) {
    l.(domains := []) == m.(domains := []) && forall d | d in l.domains + m.domains :: d in l.domains && d in m.domains
  }

  /** `folder_structure_changed` for a note with these lines: an invalid table counts as changed. */
  method FolderStructureChanged(lines: seq<string>, current: Layout) returns (changed: bool)
    ensures var t := TakeRows(NO_TABLE, FolderRegion(lines));
            var c := ToConfig(t, current);
            changed <==> t != NO_TABLE && (Acceptable(c) ==> !SameLayout(AsLayout(c), current))
  {
    hide TakeRow, FolderRegion, Acceptable, AsLayout;
    var t := ParseFolders(lines);
    if t == NO_TABLE { return false; }
    var r := BuildPaths(ToConfig(t, current));
    changed := r.Err? || !SameLayout(r.value, current);
  }

  // ---- printing ----

  /** The fixed definitions shown beside the built-in folders. */
  datatype Wording = Wording(system: string, inbox: string, dashboards: string, role: Role -> string)

  function Row(role: string, folder: Path, definition: string): string {
    RowOf([role, Join(folder), Strip(definition)])
  }

  function RootRows(l: Layout, w: Wording): seq<string> {
    [Row("System", l.system, w.system), Row("Inbox", l.inbox, w.inbox), Row("Dashboards", l.dashboards, w.dashboards)]
  }

  function RoleRows(l: Layout, w: Wording, n: nat): seq<string>
    requires n <= ROLE_COUNT
  {
    if n == 0 then []
    else RoleRows(l, w, n - 1) + [Row(RoleName(RoleAt(n - 1)), l.content.At(RoleAt(n - 1)), w.role(RoleAt(n - 1)))]
  }

  function DomainText(domain: string): string {
    "Domain folder for " + domain + "."
  }

  function DomainRow(d: (string, Path)): string {
    Row(DomainMark() + d.0, d.1, DomainText(d.0))
  }

  function DomainRows(domains: seq<(string, Path)>): (r: seq<string>)
    ensures |r| == |domains| && forall i | 0 <= i < |r| :: r[i] == DomainRow(domains[i])
  {
    seq(|domains|, i requires 0 <= i < |domains| => DomainRow(domains[i]))
  }

  function CustomRow(c: CustomFolder): string {
    Row("custom", c.path, c.description)
  }

  function CustomRows(customs: seq<CustomFolder>): (r: seq<string>)
    ensures |r| == |customs| && forall i | 0 <= i < |r| :: r[i] == CustomRow(customs[i])
  {
    seq(|customs|, i requires 0 <= i < |customs| => CustomRow(customs[i]))
  }

  function Header(): string { "| Role | Folder | Definition |" }

  function Divider(): string { "| --- | --- | --- |" }

  function TableLines(l: Layout, w: Wording): seq<string> {
    [Header(), Divider()] + (RootRows(l, w) + (RoleRows(l, w, ROLE_COUNT) + (DomainRows(l.domains) + CustomRows(l.customs))))
  }

  method AppendRoles(before: seq<string>, l: Layout, w: Wording) returns (lines: seq<string>)
    ensures lines == before + RoleRows(l, w, ROLE_COUNT)
  {
    hide Row;
    lines := before;
    for n := 0 to ROLE_COUNT
      invariant lines == before + RoleRows(l, w, n)
    {
      var r := RoleAt(n);
      lines := lines + [Row(RoleName(r), l.content.At(r), w.role(r))];
    }
  }

  method AppendDomains(before: seq<string>, domains: seq<(string, Path)>) returns (lines: seq<string>)
    ensures lines == before + DomainRows(domains)
  {
    hide DomainRow;
    lines := before;
    for n := 0 to |domains|
      invariant lines == before + DomainRows(domains)[..n]
    {
      lines := lines + [DomainRow(domains[n])];
    }
  }

  method AppendCustoms(before: seq<string>, customs: seq<CustomFolder>) returns (lines: seq<string>)
    ensures lines == before + CustomRows(customs)
  {
    hide CustomRow;
    lines := before;
    for n := 0 to |customs|
      invariant lines == before + CustomRows(customs)[..n]
    {
      lines := lines + [CustomRow(customs[n])];
    }
  }

  /** `render_folder_table`. */
  method RenderFolders(l: Layout, w: Wording) returns (lines: seq<string>)
    ensures lines == TableLines(l, w)
  {
    TableFront(l, w);
    hide *;
    lines := [Header(), Divider()];
    lines := lines + [Row("System", l.system, w.system)];
    lines := lines + [Row("Inbox", l.inbox, w.inbox)];
    lines := lines + [Row("Dashboards", l.dashboards, w.dashboards)];
    lines := AppendRoles(lines, l, w);
    lines := AppendDomains(lines, l.domains);
    lines := AppendCustoms(lines, l.customs);
  }

  lemma TableFront(l: Layout, w: Wording)
    ensures TableLines(l, w)
         == [Header(), Divider()] + [Row("System", l.system, w.system)] + [Row("Inbox", l.inbox, w.inbox)]
            + [Row("Dashboards", l.dashboards, w.dashboards)] + RoleRows(l, w, ROLE_COUNT) + DomainRows(l.domains)
            + CustomRows(l.customs)
  {
    hide Row, Header, Divider, DomainRows, CustomRows, RoleRows;
  }

  // ---- one row ----

  /** A folder that one cell can hold. */
  predicate FolderCell(p: Path) {
    Normal(p) && Clean(Join(p))
  }

  /** Every folder fits a cell, every description is stripped and without bars, no domain appears twice. */
  ghost predicate Printable(l: Layout) {
    && FolderCell(l.system) && FolderCell(l.inbox) && FolderCell(l.dashboards)
    && (forall r: Role :: FolderCell(l.content.At(r)))
    && (forall i | 0 <= i < |l.domains| :: FolderCell(l.domains[i].1))
    && (forall i, j | 0 <= i < j < |l.domains| :: l.domains[i].0 != l.domains[j].0)
    && (forall i | 0 <= i < |l.customs| :: FolderCell(l.customs[i].path) && Clean(l.customs[i].description))
  }

  ghost predicate WordingOk(w: Wording) {
    '|' !in w.system && '|' !in w.inbox && '|' !in w.dashboards && forall r: Role :: '|' !in w.role(r)
  }

  lemma CleanStripped(s: string)
    requires '|' !in s
    ensures Clean(Strip(s))
  {
    StripKeepsOut(s, '|');
  }

  lemma RowTaken(t: Table, role: string, folder: Path, definition: string)
    requires Clean(role) && FolderCell(folder) && '|' !in definition
    requires LowerAscii(role) != "role" && !IsRule(role)
    ensures TakeRow(t, Row(role, folder, definition)) == TakeRole(t, LowerAscii(role), Join(folder), Strip(definition))
  {
    hide TakeRole, Cells, RowOf, Strip, LowerAscii, IsRule, Clean, Normal;
    CleanStripped(definition);
    PathReadsBack(folder);
    RowReadsBack([role, Join(folder), Strip(definition)]);
  }

  lemma RoleShape(r: Role)
    ensures Clean(RoleName(r)) && LowerAscii(RoleName(r)) == RoleName(r) && RoleName(r) != "role" && !IsRule(RoleName(r))
    ensures RoleName(r) !in {"system", "system_dir", "inbox", "inbox_dir", "dashboards", "dashboards_dir"}
  {
    RoleLetters(r);
    LowerStays(RoleName(r));
    RoleApart(r);
  }

  lemma RoleApart(r: Role)
    ensures RoleName(r) !in {"role", "system", "system_dir", "inbox", "inbox_dir", "dashboards", "dashboards_dir"}
  {
    match r
    case People => case Contacts => case Authors => case Organizations => case Work => case Administrative =>
    case Health => case Home => case Finance => case Travel => case AdministrativeGeneral => case Thoughts => case Sources =>
  }

  predicate LowLetters(s: string) {
    s != "" && 'a' <= s[0] <= 'z' && forall i | 0 <= i < |s| :: 'a' <= s[i] <= 'z' || s[i] == '_'
  }

  lemma RoleLetters(r: Role)
    ensures LowLetters(RoleName(r))
  {
    match r
    case People => case Contacts => case Authors => case Organizations => case Work => case Administrative =>
    case Health => case Home => case Finance => case Travel => case AdministrativeGeneral => case Thoughts => case Sources =>
  }

  lemma LowerStays(s: string)
    requires LowLetters(s)
    ensures LowerAscii(s) == s && Clean(s) && !IsRule(s)
  {
    assert s[0] != '-' && s[0] != ':';
  }

  lemma RoleFound(r: Role)
    ensures RoleNamed(RoleName(r)) == Some(r)
  {
    hide RoleName;
    assert RoleIndex(r) >= 0;
    var found := RoleNamed(RoleName(r));
    if found.Some? { RoleNameInjective(found.value, r); }
  }

  lemma RoleNameInjective(r: Role, s: Role)
    requires RoleName(r) == RoleName(s)
    ensures r == s
  {
    RoleMark(r);
    RoleMark(s);
  }

  /** A fingerprint that tells the role names apart. */
  lemma RoleMark(r: Role)
    ensures var n := RoleName(r);
            match r
            case People => |n| == 6 && n[0] == 'p' case Contacts => |n| == 8 && n[0] == 'c'
            case Authors => |n| == 7 && n[0] == 'a' case Organizations => |n| == 13
            case Work => |n| == 4 && n[0] == 'w' case Administrative => |n| == 14
            case Health => |n| == 6 && n[0] == 'h' case Home => |n| == 4 && n[0] == 'h'
            case Finance => |n| == 7 && n[0] == 'f' case Travel => |n| == 6 && n[0] == 't'
            case AdministrativeGeneral => |n| == 22 case Thoughts => |n| == 8 && n[0] == 't'
            case Sources => |n| == 7 && n[0] == 's'
  {
  }

  lemma TakeRoleRow(t: Table, r: Role, folder: Path, definition: string)
    requires FolderCell(folder) && '|' !in definition
    ensures TakeRow(t, Row(RoleName(r), folder, definition)) == t.(content := Put(t.content, r, Join(folder)))
  {
    hide RoleName, TakeRow, Row, FolderCell, Strip, LowerAscii, Clean, IsRule, RoleNamed, Put;
    RoleShape(r);
    RowTaken(t, RoleName(r), folder, definition);
    RoleFound(r);
  }

  // ---- the whole table ----

  lemma {:induction false} TakeRowsConcat(t: Table, a: seq<string>, b: seq<string>)
    ensures TakeRows(t, a + b) == TakeRows(TakeRows(t, a), b)
    decreases |a|
  {
    hide TakeRow;
    if a == [] {
      assert a + b == b;
    } else {
      assert (a + b)[1..] == a[1..] + b;
      TakeRowsConcat(TakeRow(t, a[0]), a[1..], b);
    }
  }

  lemma TakeRowsSnoc(t: Table, a: seq<string>, line: string)
    ensures TakeRows(t, a + [line]) == TakeRow(TakeRows(t, a), line)
  {
    hide TakeRow;
    TakeRowsConcat(t, a, [line]);
    assert [line][1..] == [];
  }

  lemma {:induction false} PutNew<K>(d: seq<(K, string)>, key: K, value: string)
    requires forall i | 0 <= i < |d| :: d[i].0 != key
    ensures Put(d, key, value) == d + [(key, value)]
  {
    if d != [] {
      PutNew(d[1..], key, value);
      assert d == [d[0]] + d[1..];
    }
  }

  function RoleCells(l: Layout, n: nat): (r: seq<(Role, string)>)
    requires n <= ROLE_COUNT
    ensures |r| == n && forall i | 0 <= i < n :: r[i] == (RoleAt(i), Join(l.content.At(RoleAt(i))))
  {
    seq(n, i requires 0 <= i < n => (RoleAt(i), Join(l.content.At(RoleAt(i)))))
  }

  lemma {:induction false} TakeRoles(t: Table, l: Layout, w: Wording, n: nat)
    requires n <= ROLE_COUNT && t.content == [] && Printable(l) && WordingOk(w)
    ensures TakeRows(t, RoleRows(l, w, n)) == t.(content := RoleCells(l, n))
  {
    hide TakeRow, Row, FolderCell, Printable, WordingOk, RoleAt, RoleName, Put, ContentDirs.At;
    if n > 0 {
      TakeRoles(t, l, w, n - 1);
      var r := RoleAt(n - 1);
      RolePrintable(l, w, r);
      TakeRowsSnoc(t, RoleRows(l, w, n - 1), Row(RoleName(r), l.content.At(r), w.role(r)));
      TakeRoleRow(t.(content := RoleCells(l, n - 1)), r, l.content.At(r), w.role(r));
      var before := RoleCells(l, n - 1);
      forall i | 0 <= i < |before| ensures before[i].0 != r { assert RoleIndex(RoleAt(i)) == i; }
      PutNew(RoleCells(l, n - 1), r, Join(l.content.At(r)));
      assert RoleCells(l, n) == RoleCells(l, n - 1) + [(r, Join(l.content.At(r)))];
    }
  }

  lemma RolePrintable(l: Layout, w: Wording, r: Role)
    requires Printable(l) && WordingOk(w)
    ensures FolderCell(l.content.At(r)) && '|' !in w.role(r)
  {
    hide FolderCell, Clean, ContentDirs.At;
  }

  function DomainCells(domains: seq<(string, Path)>): (r: seq<(string, string)>)
    ensures |r| == |domains| && forall i | 0 <= i < |r| :: r[i] == (domains[i].0, Join(domains[i].1))
  {
    seq(|domains|, i requires 0 <= i < |domains| => (domains[i].0, Join(domains[i].1)))
  }

  predicate SlugText(s: string) {
    s != "" && forall i | 0 <= i < |s| :: s[i] == '_' || SlugChar(s[i])
  }

  lemma SlugLower(s: string)
    requires SlugText(s)
    ensures LowerAscii(s) == s && Clean(s)
  {
  }

  lemma MarkLower()
    ensures LowerAscii(DomainMark()) == DomainMark() && |DomainMark()| == 7 && DomainMark()[0] == 'd' && DomainMark()[6] == ':'
    ensures Clean(DomainMark())
  {
  }

  lemma LowerConcat(a: string, b: string)
    ensures LowerAscii(a + b) == LowerAscii(a) + LowerAscii(b)
  {
  }

  lemma CleanConcat(a: string, b: string)
    requires a != "" && b != "" && Clean(a) && Clean(b)
    ensures Clean(a + b)
  {
    hide IsSpace;
  }

  lemma NoRule(key: string)
    requires key != "" && key[0] == 'd'
    ensures !IsRule(key) && key != "role"
  {
    assert key[0] != '-' && key[0] != ':';
    assert "role"[0] == 'r';
  }

  lemma AfterMark(slug: string)
    ensures var key := DomainMark() + slug; IsDomainKey(key) && key[7..] == slug && key[0] == 'd'
  {
    MarkLower();
    hide LowerAscii, Clean, DomainMark;
    var key := DomainMark() + slug;
    assert key[..7] == DomainMark() && key[7..] == slug;
  }

  /** The key of a domain row is none of the fixed ones, and its slug is read back. */
  lemma DomainKeyShape(slug: string)
    requires SlugText(slug)
    ensures var key := DomainMark() + slug;
            LowerAscii(key) == key && Clean(key) && key != "role" && !IsRule(key) && IsDomainKey(key) && Strip(key[7..]) == slug
  {
    hide *;
    MarkLower();
    SlugLower(slug);
    SlugNonEmpty(slug);
    LowerConcat(DomainMark(), slug);
    CleanConcat(DomainMark(), slug);
    AfterMark(slug);
    NoRule(DomainMark() + slug);
    CleanText(slug);
  }

  lemma MarkedKey(key: string)
    requires IsDomainKey(key)
    ensures key !in {"system", "system_dir", "inbox", "inbox_dir", "dashboards", "dashboards_dir"} && RoleNamed(key).None?
  {
    assert key[6] == key[..7][6] == ':';
    forall r: Role ensures RoleName(r) != key { RoleLetters(r); }
  }

  lemma TakeDomainRow(t: Table, d: (string, Path))
    requires SlugText(d.0) && FolderCell(d.1)
    ensures TakeRow(t, DomainRow(d)) == t.(domains := Put(t.domains, d.0, Join(d.1)))
  {
    hide *;
    DomainKeyShape(d.0);
    SlugNonEmpty(d.0);
    DomainTextClean(d.0);
    var key := DomainMark() + d.0;
    RowTaken(t, key, d.1, DomainText(d.0));
    MarkedKey(key);
    DomainTaken(t, key, Join(d.1), Strip(DomainText(d.0)));
    DomainRowIs(d);
  }

  lemma SlugNonEmpty(s: string)
    requires SlugText(s)
    ensures s != ""
  {
  }

  lemma DomainRowIs(d: (string, Path))
    ensures DomainRow(d) == Row(DomainMark() + d.0, d.1, DomainText(d.0))
  {
  }

  lemma DomainTaken(t: Table, key: string, folder: string, definition: string)
    requires IsDomainKey(key) && Strip(key[7..]) != "" && RoleNamed(key).None?
    requires key !in {"system", "system_dir", "inbox", "inbox_dir", "dashboards", "dashboards_dir"}
    ensures TakeRole(t, key, folder, definition) == t.(domains := Put(t.domains, Strip(key[7..]), folder))
  {
    hide RoleNamed, Strip, Put, IsDomainKey;
  }

  lemma DomainTextClean(slug: string)
    requires SlugText(slug)
    ensures '|' !in DomainText(slug)
  {
  }

  lemma {:induction false} TakeDomains(t: Table, domains: seq<(string, Path)>)
    requires t.domains == [] && forall i | 0 <= i < |domains| :: SlugText(domains[i].0) && FolderCell(domains[i].1)
    requires forall i, j | 0 <= i < j < |domains| :: domains[i].0 != domains[j].0
    ensures TakeRows(t, DomainRows(domains)) == t.(domains := DomainCells(domains))
  {
    hide TakeRow, DomainRow, FolderCell, SlugText, Put;
    if domains == [] {
      assert DomainCells(domains) == [];
    } else {
      var m, last := domains[..|domains| - 1], domains[|domains| - 1];
      TakeDomains(t, m);
      assert DomainRows(domains) == DomainRows(m) + [DomainRow(last)];
      TakeRowsSnoc(t, DomainRows(m), DomainRow(last));
      TakeDomainRow(t.(domains := DomainCells(m)), last);
      PutNew(DomainCells(m), last.0, Join(last.1));
      assert DomainCells(domains) == DomainCells(m) + [(last.0, Join(last.1))];
    }
  }

  function CustomCells(customs: seq<CustomFolder>): (r: seq<(string, string)>)
    ensures |r| == |customs| && forall i | 0 <= i < |r| :: r[i] == (Join(customs[i].path), customs[i].description)
  {
    seq(|customs|, i requires 0 <= i < |customs| => (Join(customs[i].path), customs[i].description))
  }

  lemma CustomKey()
    ensures LowerAscii("custom") == "custom" && Clean("custom") && "custom" != "role" && !IsRule("custom")
    ensures "custom" !in {"system", "system_dir", "inbox", "inbox_dir", "dashboards", "dashboards_dir"}
  {
    LowerStays("custom");
  }

  lemma CustomNoRole()
    ensures RoleNamed("custom").None? && !IsDomainKey("custom")
  {
    assert |"custom"| == 6 && "custom"[1] == 'u';
    forall r: Role ensures RoleName(r) != "custom" {
      RoleMark(r);
      assert r.People? ==> RoleName(r)[0] == 'p';
      assert r.Health? ==> RoleName(r)[0] == 'h';
      assert r.Travel? ==> RoleName(r)[0] == 't';
    }
  }

  lemma CustomTaken(t: Table, folder: string, definition: string)
    ensures TakeRole(t, "custom", folder, definition) == t.(customs := t.customs + [(folder, definition)])
  {
    CustomKey();
    CustomNoRole();
    hide RoleNamed, Strip, Put, IsDomainKey;
  }

  lemma CustomRowIs(c: CustomFolder)
    ensures CustomRow(c) == Row("custom", c.path, c.description)
  {
  }

  lemma CleanText(s: string)
    requires Clean(s)
    ensures '|' !in s && Strip(s) == s
  {
    StripTrimmed(s);
  }

  lemma TakeCustomRow(t: Table, c: CustomFolder)
    requires FolderCell(c.path) && Clean(c.description)
    ensures TakeRow(t, CustomRow(c)) == t.(customs := t.customs + [(Join(c.path), c.description)])
  {
    hide *;
    CustomKey();
    CleanText(c.description);
    RowTaken(t, "custom", c.path, c.description);
    CustomTaken(t, Join(c.path), c.description);
    CustomRowIs(c);
  }

  lemma CustomsGrow(t: Table, key: string, folder: string, definition: string)
    ensures var now := TakeRole(t, key, folder, definition).customs;
            now == t.customs || now == t.customs + [(folder, definition)]
  {
    hide RoleNamed, Strip, Put, IsDomainKey;
  }

  /** Whatever a line adds to the custom folders, its description is stripped and holds no bar. */
  lemma CustomAdded(t: Table, line: string, folder: string, definition: string)
    requires TakeRow(t, line).customs == t.customs + [(folder, definition)]
    ensures Clean(definition)
  {
    CellsClean(line);
    hide Cells, TakeRole, LowerAscii, IsRule, IsSpace;
    assert Cells(line).Some?;
    var cells := Cells(line).value;
    assert |cells| >= 2;
    CustomsGrow(t, LowerAscii(cells[0]), cells[1], if |cells| > 2 then cells[2] else "");
    assert (t.customs + [(folder, definition)])[|t.customs|] == (folder, definition);
  }

  /** A custom folder survives the round trip exactly when its description is stripped and has no bar. */
  lemma CustomKeptIff(t: Table, c: CustomFolder)
    requires FolderCell(c.path)
    ensures TakeRow(t, CustomRow(c)) == t.(customs := t.customs + [(Join(c.path), c.description)]) <==> Clean(c.description)
  {
    hide *;
    if Clean(c.description) {
      TakeCustomRow(t, c);
    } else if TakeRow(t, CustomRow(c)) == t.(customs := t.customs + [(Join(c.path), c.description)]) {
      CustomAdded(t, CustomRow(c), Join(c.path), c.description);
    }
  }

  lemma {:induction false} TakeCustoms(t: Table, customs: seq<CustomFolder>)
    requires t.customs == [] && forall i | 0 <= i < |customs| :: FolderCell(customs[i].path) && Clean(customs[i].description)
    ensures TakeRows(t, CustomRows(customs)) == t.(customs := CustomCells(customs))
  {
    hide TakeRow, CustomRow, FolderCell, Clean;
    if customs == [] {
      assert CustomCells(customs) == [];
    } else {
      var m, last := customs[..|customs| - 1], customs[|customs| - 1];
      TakeCustoms(t, m);
      assert CustomRows(customs) == CustomRows(m) + [CustomRow(last)];
      TakeRowsSnoc(t, CustomRows(m), CustomRow(last));
      TakeCustomRow(t.(customs := CustomCells(m)), last);
      assert CustomCells(customs) == CustomCells(m) + [(Join(last.path), last.description)];
    }
  }

  predicate RootName(name: string) {
    name == "System" || name == "Inbox" || name == "Dashboards"
  }

  lemma RootKeys()
    ensures LowerAscii("System") == "system" && LowerAscii("Inbox") == "inbox" && LowerAscii("Dashboards") == "dashboards"
  {
  }

  lemma RootShape(name: string)
    requires RootName(name)
    ensures Clean(name) && !IsRule(name) && LowerAscii(name) != "role"
  {
    RootKeys();
    hide LowerAscii;
    assert |"role"| == 4 && |"system"| == 6 && |"inbox"| == 5 && |"dashboards"| == 10;
    assert name[0] != '-' && name[0] != ':';
  }

  lemma RootTaken(t: Table, folder: string, definition: string)
    ensures TakeRole(t, "system", folder, definition) == t.(system := Some(folder))
    ensures TakeRole(t, "inbox", folder, definition) == t.(inbox := Some(folder))
    ensures TakeRole(t, "dashboards", folder, definition) == t.(dashboards := Some(folder))
  {
    hide RoleNamed, Strip, Put, IsDomainKey;
    assert "inbox"[0] == 'i' && "system"[0] == 's' && "dashboards"[0] == 'd' && "system_dir"[0] == 's' && "inbox_dir"[0] == 'i';
  }

  lemma TakeRootRow(t: Table, name: string, folder: Path, definition: string)
    requires RootName(name) && FolderCell(folder) && '|' !in definition
    ensures TakeRow(t, Row(name, folder, definition)) == TakeRole(t, LowerAscii(name), Join(folder), Strip(definition))
  {
    RootShape(name);
    hide *;
    RowTaken(t, name, folder, definition);
  }

  lemma TakeRoots(t: Table, l: Layout, w: Wording)
    requires Printable(l) && WordingOk(w)
    ensures TakeRows(t, RootRows(l, w))
         == t.(system := Some(Join(l.system)), inbox := Some(Join(l.inbox)), dashboards := Some(Join(l.dashboards)))
  {
    hide *;
    RootsPrintable(l, w);
    RootKeys();
    RootNames();
    var t1 := t.(system := Some(Join(l.system)));
    var t2 := t1.(inbox := Some(Join(l.inbox)));
    TakeRootRow(t, "System", l.system, w.system);
    RootTaken(t, Join(l.system), Strip(w.system));
    TakeRootRow(t1, "Inbox", l.inbox, w.inbox);
    RootTaken(t1, Join(l.inbox), Strip(w.inbox));
    TakeRootRow(t2, "Dashboards", l.dashboards, w.dashboards);
    RootTaken(t2, Join(l.dashboards), Strip(w.dashboards));
    ThreeRows(t, Row("System", l.system, w.system), Row("Inbox", l.inbox, w.inbox), Row("Dashboards", l.dashboards, w.dashboards));
    RootRowsAre(l, w);
  }

  lemma RootNames()
    ensures RootName("System") && RootName("Inbox") && RootName("Dashboards")
  {
  }

  lemma RootRowsAre(l: Layout, w: Wording)
    ensures RootRows(l, w)
         == [Row("System", l.system, w.system), Row("Inbox", l.inbox, w.inbox), Row("Dashboards", l.dashboards, w.dashboards)]
  {
    hide Row;
  }

  lemma RootsPrintable(l: Layout, w: Wording)
    requires Printable(l) && WordingOk(w)
    ensures FolderCell(l.system) && FolderCell(l.inbox) && FolderCell(l.dashboards)
    ensures '|' !in w.system && '|' !in w.inbox && '|' !in w.dashboards
  {
    hide FolderCell, Clean;
  }

  lemma ThreeRows(t: Table, a: string, b: string, c: string)
    ensures TakeRows(t, [a, b, c]) == TakeRow(TakeRow(TakeRow(t, a), b), c)
  {
    TwoRows(t, a, b);
    TakeRowsSnoc(t, [a, b], c);
    hide *;
    assert [a, b] + [c] == [a, b, c];
  }

  lemma TwoRows(t: Table, a: string, b: string)
    ensures TakeRows(t, [a, b]) == TakeRow(TakeRow(t, a), b)
  {
    hide TakeRow;
    assert TakeRows(t, [a]) == TakeRow(t, a) by { assert [a][1..] == []; }
    TakeRowsSnoc(t, [a], b);
    assert [a] + [b] == [a, b];
  }

  /** The header and the rule under it are passed over. */
  lemma HeadPassed(t: Table)
    ensures TakeRow(t, Header()) == t && TakeRow(t, Divider()) == t
  {
    hide *;
    HeadRows();
    HeadClean();
    RowReadsBack(["Role", "Folder", "Definition"]);
    RowReadsBack(["---", "---", "---"]);
    HeadCells(t);
    RowOfCells(t, Header(), ["Role", "Folder", "Definition"]);
    RowOfCells(t, Divider(), ["---", "---", "---"]);
  }

  lemma RowOfCells(t: Table, line: string, cells: seq<string>)
    requires Cells(line) == Some(cells)
    ensures TakeRow(t, line) == TakeCells(t, cells)
  {
    hide TakeCells, Cells;
  }

  lemma HeaderParts()
    ensures Header() == "| " + "Role" + " | " + "Folder" + " | " + "Definition" + " |"
  {
  }

  lemma DividerParts()
    ensures Divider() == "| " + "---" + " | " + "---" + " | " + "---" + " |"
  {
  }

  lemma HeadRows()
    ensures Header() == RowOf(["Role", "Folder", "Definition"])
    ensures Divider() == RowOf(["---", "---", "---"])
  {
    hide *;
    HeaderParts();
    DividerParts();
    ThreeCells("Role", "Folder", "Definition");
    ThreeCells("---", "---", "---");
  }

  lemma InnerTwo(b: string, c: string)
    ensures Inner([b, c]) == " " + b + " | " + c + " "
  {
    assert [b, c][1..] == [c];
    assert Inner([c]) == " " + (c + " ");
    assert Pad(b) + ("|" + (" " + (c + " "))) == " " + b + " | " + c + " ";
  }

  lemma ThreeCells(a: string, b: string, c: string)
    ensures RowOf([a, b, c]) == "| " + a + " | " + b + " | " + c + " |"
  {
    InnerTwo(b, c);
    assert [a, b, c][1..] == [b, c];
    assert Inner([a, b, c]) == Pad(a) + ("|" + Inner([b, c]));
    hide Inner;
    assert "|" + ((" " + (a + " ")) + ("|" + (" " + b + " | " + c + " ")) + "|") == "| " + a + " | " + b + " | " + c + " |";
  }

  lemma HeadClean()
    ensures Clean("Role") && Clean("Folder") && Clean("Definition") && Clean("---")
  {
  }

  lemma HeadCells(t: Table)
    ensures TakeCells(t, ["Role", "Folder", "Definition"]) == t && TakeCells(t, ["---", "---", "---"]) == t
  {
    assert LowerAscii("Role") == "role";
    assert IsRule("---");
  }

  /** The table a layout prints as. */
  function TableOf(l: Layout): Table {
    Table(Some(Join(l.system)), Some(Join(l.inbox)), Some(Join(l.dashboards)),
          RoleCells(l, ROLE_COUNT), DomainCells(l.domains), CustomCells(l.customs))
  }

  /** The printed rows are read back cell by cell. */
  lemma TableReadsBack(l: Layout, w: Wording)
    requires ValidLayout(l) && Printable(l) && WordingOk(w)
    ensures TakeRows(NO_TABLE, TableLines(l, w)) == TableOf(l)
  {
    DomainsPrintable(l);
    TableLinesAre(l, w);
    hide *;
    var t1 := NO_TABLE.(system := Some(Join(l.system)), inbox := Some(Join(l.inbox)), dashboards := Some(Join(l.dashboards)));
    var t2 := t1.(content := RoleCells(l, ROLE_COUNT));
    var t3 := t2.(domains := DomainCells(l.domains));
    HeadPassed(NO_TABLE);
    HeadTaken();
    TakeRoots(NO_TABLE, l, w);
    TakeRoles(t1, l, w, ROLE_COUNT);
    TakeDomains(t2, l.domains);
    TakeCustoms(t3, l.customs);
    TakeRowsConcat(t2, DomainRows(l.domains), CustomRows(l.customs));
    TakeRowsConcat(t1, RoleRows(l, w, ROLE_COUNT), DomainRows(l.domains) + CustomRows(l.customs));
    TakeRowsConcat(NO_TABLE, RootRows(l, w), RoleRows(l, w, ROLE_COUNT) + (DomainRows(l.domains) + CustomRows(l.customs)));
    TakeRowsConcat(NO_TABLE, [Header(), Divider()],
                   RootRows(l, w) + (RoleRows(l, w, ROLE_COUNT) + (DomainRows(l.domains) + CustomRows(l.customs))));
    TableIs(l);
  }

  lemma TableIs(l: Layout)
    ensures TableOf(l) == Table(Some(Join(l.system)), Some(Join(l.inbox)), Some(Join(l.dashboards)),
                                RoleCells(l, ROLE_COUNT), DomainCells(l.domains), CustomCells(l.customs))
  {
  }

  lemma HeadTaken()
    ensures TakeRows(NO_TABLE, [Header(), Divider()]) == NO_TABLE
  {
    HeadPassed(NO_TABLE);
    hide *;
    TwoRows(NO_TABLE, Header(), Divider());
  }

  lemma TableLinesAre(l: Layout, w: Wording)
    ensures TableLines(l, w)
         == [Header(), Divider()] + (RootRows(l, w) + (RoleRows(l, w, ROLE_COUNT) + (DomainRows(l.domains) + CustomRows(l.customs))))
  {
  }

  lemma DomainsPrintable(l: Layout)
    requires ValidLayout(l) && Printable(l)
    ensures forall i | 0 <= i < |l.domains| :: SlugText(l.domains[i].0) && FolderCell(l.domains[i].1)
    ensures forall i, j | 0 <= i < j < |l.domains| :: l.domains[i].0 != l.domains[j].0
    ensures forall i | 0 <= i < |l.customs| :: FolderCell(l.customs[i].path) && Clean(l.customs[i].description)
  {
    hide FolderCell, Clean, ContentOk, CustomsOk, RootsOk, ApartFromReserved, Apart;
    forall i | 0 <= i < |l.domains| ensures SlugText(l.domains[i].0) { assert DomainOk(l, i); }
  }

  // ---- the layout it stands for ----

  lemma ConfiguredSnoc(e: seq<(ContentKey, RawPath)>, role: Role, p: Path, k: Role)
    ensures Configured(e + [(Known(role), RawPath(false, p))]).At(k) == if k == role then p else Configured(e).At(k)
  {
    hide ContentDirs.At;
    var all := e + [(Known(role), RawPath(false, p))];
    assert all[..|all| - 1] == e;
  }

  lemma RoleEntriesSnoc(l: Layout, n: nat)
    requires 0 < n <= ROLE_COUNT && Printable(l)
    ensures var r := RoleAt(n - 1);
            ContentEntries(RoleCells(l, n)) == ContentEntries(RoleCells(l, n - 1)) + [(Known(r), RawPath(false, l.content.At(r)))]
  {
    hide Printable, FolderCell, ContentDirs.At, RoleAt, ParsePath;
    CellRead(l, RoleAt(n - 1));
  }

  lemma {:induction false} RolesConfigured(l: Layout, n: nat, r: Role)
    requires n <= ROLE_COUNT && Printable(l)
    ensures RoleIndex(r) < n ==> Configured(ContentEntries(RoleCells(l, n))).At(r) == l.content.At(r)
    decreases n
  {
    hide *;
    if n > 0 {
      RolesConfigured(l, n - 1, r);
      RoleEntriesSnoc(l, n);
      ConfiguredSnoc(ContentEntries(RoleCells(l, n - 1)), RoleAt(n - 1), l.content.At(RoleAt(n - 1)), r);
      if RoleIndex(r) == n - 1 { RoleIndexInjective(r, RoleAt(n - 1)); }
    }
  }

  lemma CellRead(l: Layout, r: Role)
    requires Printable(l)
    ensures ParsePath(Join(l.content.At(r))) == RawPath(false, l.content.At(r)) && Normal(l.content.At(r))
  {
    hide Normal, Clean, ParsePath, ContentDirs.At;
    assert FolderCell(l.content.At(r));
    PathReadsBack(l.content.At(r));
  }

  lemma ContentBack(l: Layout)
    requires Printable(l)
    ensures Configured(ContentEntries(RoleCells(l, ROLE_COUNT))) == l.content
  {
    assert ROLE_COUNT >= 0 && forall r: Role :: RoleIndex(r) < ROLE_COUNT;
    hide *;
    forall r: Role ensures Configured(ContentEntries(RoleCells(l, ROLE_COUNT))).At(r) == l.content.At(r) {
      RolesConfigured(l, ROLE_COUNT, r);
    }
    SameContent(Configured(ContentEntries(RoleCells(l, ROLE_COUNT))), l.content);
  }

  lemma DomainsBack(l: Layout)
    requires Printable(l)
    ensures DomainsOf(DomainEntries(DomainCells(l.domains))) == l.domains
    ensures forall i | 0 <= i < |l.domains| :: DomainEntries(DomainCells(l.domains))[i].1 == RawPath(false, l.domains[i].1)
  {
    hide Normal, Clean, ParsePath;
    forall i | 0 <= i < |l.domains| ensures ParsePath(Join(l.domains[i].1)) == RawPath(false, l.domains[i].1) {
      assert FolderCell(l.domains[i].1);
      PathReadsBack(l.domains[i].1);
    }
  }

  lemma CustomsBack(l: Layout)
    requires Printable(l)
    ensures CustomsOf(CustomEntries(CustomCells(l.customs))) == l.customs
    ensures forall i | 0 <= i < |l.customs| :: CustomEntries(CustomCells(l.customs))[i].0 == RawPath(false, l.customs[i].path)
  {
    hide Normal, Clean, ParsePath;
    forall i | 0 <= i < |l.customs| ensures ParsePath(Join(l.customs[i].path)) == RawPath(false, l.customs[i].path) {
      assert FolderCell(l.customs[i].path);
      PathReadsBack(l.customs[i].path);
    }
  }

  /** A folder the configuration may name. */
  predicate FreePath(p: Path) {
    PathOk(RawPath(false, p))
  }

  /** Every folder of the layout is one the configuration may name: what `build_paths` gives. */
  ghost predicate Unprotected(l: Layout) {
    && FreePath(l.system) && FreePath(l.inbox) && FreePath(l.dashboards)
    && (forall r: Role :: FreePath(l.content.At(r)))
    && (forall i | 0 <= i < |l.domains| :: FreePath(l.domains[i].1))
    && (forall i | 0 <= i < |l.customs| :: FreePath(l.customs[i].path))
  }

  lemma RootsBack(l: Layout, base: Layout)
    requires Printable(l)
    ensures var c := ToConfig(TableOf(l), base);
            c.system == RawPath(false, l.system) && c.inbox == RawPath(false, l.inbox) && c.dashboards == RawPath(false, l.dashboards)
  {
    RootCells(l);
    hide Normal, Clean, ParsePath, FolderCell, Printable, RoleCells, DomainCells, CustomCells, Join, ContentEntries, DomainEntries, CustomEntries;
  }

  lemma RootCells(l: Layout)
    requires Printable(l)
    ensures ParsePath(Join(l.system)) == RawPath(false, l.system)
    ensures ParsePath(Join(l.inbox)) == RawPath(false, l.inbox)
    ensures ParsePath(Join(l.dashboards)) == RawPath(false, l.dashboards)
  {
    hide Normal, Clean, ParsePath;
    assert FolderCell(l.system) && FolderCell(l.inbox) && FolderCell(l.dashboards);
    PathReadsBack(l.system);
    PathReadsBack(l.inbox);
    PathReadsBack(l.dashboards);
  }

  lemma ConfigParts(l: Layout, base: Layout)
    ensures var c := ToConfig(TableOf(l), base);
            && c.content == ContentEntries(RoleCells(l, ROLE_COUNT))
            && c.domains == DomainEntries(DomainCells(l.domains))
            && c.customs == CustomEntries(CustomCells(l.customs))
  {
    hide RoleCells, DomainCells, CustomCells, Join, ContentEntries, DomainEntries, CustomEntries, RootFrom;
  }

  lemma AskedFor(c: Config)
    ensures AsLayout(c) == Layout(c.system.parts, c.inbox.parts, c.dashboards.parts, Configured(c.content),
                                  DomainsOf(c.domains), CustomsOf(c.customs))
  {
    hide Configured, DomainsOf, CustomsOf;
  }

  /** The table of a layout asks for exactly that layout, whatever the base. */
  lemma TableStandsFor(l: Layout, base: Layout)
    requires Printable(l)
    ensures AsLayout(ToConfig(TableOf(l), base)) == l
  {
    hide *;
    RootsBack(l, base);
    ConfigParts(l, base);
    ContentBack(l);
    DomainsBack(l);
    CustomsBack(l);
    AskedFor(ToConfig(TableOf(l), base));
  }

  lemma ContentPathsOk(l: Layout)
    requires Printable(l) && Unprotected(l)
    ensures var e := ContentEntries(RoleCells(l, ROLE_COUNT));
            forall i | 0 <= i < |e| :: e[i].0.Known? && PathOk(e[i].1)
  {
    var e := ContentEntries(RoleCells(l, ROLE_COUNT));
    hide Printable, ContentDirs.At, PathOk, RoleAt, ParsePath;
    forall i | 0 <= i < |e| ensures e[i].0.Known? && PathOk(e[i].1) {
      CellRead(l, RoleAt(i));
      assert FreePath(l.content.At(RoleAt(i)));
    }
  }

  lemma OtherPathsOk(l: Layout)
    requires Printable(l) && Unprotected(l)
    ensures var e := DomainEntries(DomainCells(l.domains)); forall i | 0 <= i < |e| :: PathOk(e[i].1)
    ensures var e := CustomEntries(CustomCells(l.customs)); forall i | 0 <= i < |e| :: PathOk(e[i].0)
  {
    DomainsBack(l);
    CustomsBack(l);
    hide PathOk, ParsePath, Printable, DomainsOf, CustomsOf;
    forall i | 0 <= i < |l.domains| ensures PathOk(RawPath(false, l.domains[i].1)) { assert FreePath(l.domains[i].1); }
    forall i | 0 <= i < |l.customs| ensures PathOk(RawPath(false, l.customs[i].path)) { assert FreePath(l.customs[i].path); }
  }

  lemma RootPathsOk(l: Layout)
    requires Unprotected(l)
    ensures PathOk(RawPath(false, l.system)) && PathOk(RawPath(false, l.inbox)) && PathOk(RawPath(false, l.dashboards))
  {
    hide PathOk;
  }

  lemma AcceptableIs(c: Config)
    requires PathOk(c.system) && PathOk(c.inbox) && PathOk(c.dashboards)
    requires forall i | 0 <= i < |c.content| :: c.content[i].0.Known? && PathOk(c.content[i].1)
    requires forall i | 0 <= i < |c.domains| :: PathOk(c.domains[i].1)
    requires forall i | 0 <= i < |c.customs| :: PathOk(c.customs[i].0)
    requires ValidLayout(AsLayout(c))
    ensures Acceptable(c)
  {
    hide ValidLayout, AsLayout, PathOk;
  }

  /** `build_paths` accepts what the table of a valid layout asks for, and gives back that layout. */
  lemma TableAccepted(l: Layout, base: Layout)
    requires ValidLayout(l) && Unprotected(l) && Printable(l)
    ensures Acceptable(ToConfig(TableOf(l), base)) && AsLayout(ToConfig(TableOf(l), base)) == l
  {
    hide *;
    TableStandsFor(l, base);
    RootsBack(l, base);
    ConfigParts(l, base);
    RootPathsOk(l);
    ContentPathsOk(l);
    OtherPathsOk(l);
    AcceptableIs(ToConfig(TableOf(l), base));
  }

  // ---- the section in its note ----

  lemma {:induction false} RegionAfter(before: seq<string>, title: string, lines: seq<string>)
    requires (forall i | 0 <= i < |before| :: !IsFoldersLine(before[i])) && IsFoldersLine(title)
    ensures FolderRegion(before + ([title] + lines)) == UpToSection(lines)
  {
    hide IsFoldersLine, UpToSection;
    var all := before + ([title] + lines);
    if before == [] {
      assert all == [title] + lines && all[1..] == lines;
    } else {
      assert all[0] == before[0] && all[1..] == before[1..] + ([title] + lines);
      RegionAfter(before[1..], title, lines);
    }
  }

  lemma {:induction false} UpToNext(lines: seq<string>, next: seq<string>)
    requires forall i | 0 <= i < |lines| :: !IsSectionLine(lines[i])
    requires next == [] || IsSectionLine(next[0])
    ensures UpToSection(lines + next) == lines
  {
    hide IsSectionLine;
    var all := lines + next;
    if lines == [] {
      assert all == next;
    } else {
      assert all[0] == lines[0] && all[1..] == lines[1..] + next;
      UpToNext(lines[1..], next);
      assert lines == [lines[0]] + lines[1..];
    }
  }

  /** A line that is no table row and starts no section. */
  predicate Plain(line: string) {
    Cells(line).None? && !IsSectionLine(line)
  }

  lemma {:induction false} PlainPassed(t: Table, lines: seq<string>)
    requires forall i | 0 <= i < |lines| :: Plain(lines[i])
    ensures TakeRows(t, lines) == t
  {
    hide Cells, IsSectionLine;
    if lines != [] {
      assert Plain(lines[0]);
      PlainPassed(t, lines[1..]);
    }
  }

  lemma RowStart(role: string, folder: Path, definition: string)
    ensures !IsSectionLine(Row(role, folder, definition))
  {
    hide Strip, Inner;
    assert Row(role, folder, definition)[0] == '|';
  }

  predicate NoSections(lines: seq<string>) {
    forall i | 0 <= i < |lines| :: !IsSectionLine(lines[i])
  }

  lemma NoSectionsConcat(a: seq<string>, b: seq<string>)
    requires NoSections(a) && NoSections(b)
    ensures NoSections(a + b)
  {
    hide IsSectionLine;
  }

  lemma {:induction false} RolesNoSection(l: Layout, w: Wording, n: nat)
    requires n <= ROLE_COUNT
    ensures NoSections(RoleRows(l, w, n))
  {
    hide IsSectionLine, Row, ContentDirs.At, RoleAt, RoleName;
    if n > 0 {
      RolesNoSection(l, w, n - 1);
      RowStart(RoleName(RoleAt(n - 1)), l.content.At(RoleAt(n - 1)), w.role(RoleAt(n - 1)));
    }
  }

  lemma RowsNoSection(l: Layout)
    ensures NoSections(DomainRows(l.domains)) && NoSections(CustomRows(l.customs))
  {
    hide IsSectionLine, Row;
    forall i | 0 <= i < |l.domains| ensures !IsSectionLine(DomainRow(l.domains[i])) {
      RowStart(DomainMark() + l.domains[i].0, l.domains[i].1, DomainText(l.domains[i].0));
    }
    forall i | 0 <= i < |l.customs| ensures !IsSectionLine(CustomRow(l.customs[i])) {
      RowStart("custom", l.customs[i].path, l.customs[i].description);
    }
  }

  lemma RootsNoSection(l: Layout, w: Wording)
    ensures NoSections(RootRows(l, w))
  {
    hide IsSectionLine, Row;
    RowStart("System", l.system, w.system);
    RowStart("Inbox", l.inbox, w.inbox);
    RowStart("Dashboards", l.dashboards, w.dashboards);
  }

  lemma HeadNoSection()
    ensures NoSections([Header(), Divider()])
  {
    assert Header()[0] == '|' && Divider()[0] == '|';
  }

  lemma TableNoSection(l: Layout, w: Wording)
    ensures NoSections(TableLines(l, w))
  {
    assert ROLE_COUNT >= 0;
    hide *;
    TableLinesAre(l, w);
    HeadNoSection();
    RootsNoSection(l, w);
    RolesNoSection(l, w, ROLE_COUNT);
    RowsNoSection(l);
    NoSectionsConcat(DomainRows(l.domains), CustomRows(l.customs));
    NoSectionsConcat(RoleRows(l, w, ROLE_COUNT), DomainRows(l.domains) + CustomRows(l.customs));
    NoSectionsConcat(RootRows(l, w), RoleRows(l, w, ROLE_COUNT) + (DomainRows(l.domains) + CustomRows(l.customs)));
    NoSectionsConcat([Header(), Divider()],
                     RootRows(l, w) + (RoleRows(l, w, ROLE_COUNT) + (DomainRows(l.domains) + CustomRows(l.customs))));
  }

  /** The folder section of the printed note: its heading, plain lines, the table, a blank line. */
  function SectionLines(l: Layout, w: Wording, title: string, intro: seq<string>): seq<string> {
    [title] + (intro + (TableLines(l, w) + [""]))
  }

  lemma PlainNoSections(lines: seq<string>)
    requires forall i | 0 <= i < |lines| :: Plain(lines[i])
    ensures NoSections(lines)
  {
    hide Cells, IsSectionLine;
  }

  lemma BlankPlain()
    ensures Plain("")
  {
    StripTrimmed("");
  }

  lemma SectionIs(l: Layout, w: Wording, title: string, intro: seq<string>)
    ensures SectionLines(l, w, title, intro) == [title] + (intro + (TableLines(l, w) + [""]))
  {
    hide TableLines;
  }

  lemma SectionRegion(l: Layout, w: Wording, before: seq<string>, title: string, intro: seq<string>, next: seq<string>)
    requires (forall i | 0 <= i < |before| :: !IsFoldersLine(before[i])) && IsFoldersLine(title)
    requires (forall i | 0 <= i < |intro| :: Plain(intro[i])) && (next == [] || IsSectionLine(next[0]))
    ensures FolderRegion(before + (SectionLines(l, w, title, intro) + next)) == intro + (TableLines(l, w) + [""])
  {
    hide *;
    BlankNoSection();
    SectionIs(l, w, title, intro);
    var body := intro + (TableLines(l, w) + [""]);
    PlainNoSections(intro);
    TableNoSection(l, w);
    NoSectionsConcat(TableLines(l, w), [""]);
    NoSectionsConcat(intro, TableLines(l, w) + [""]);
    UpToNextSection(body, next);
    assert SectionLines(l, w, title, intro) + next == [title] + (body + next);
    RegionAfter(before, title, body + next);
  }

  lemma BlankNoSection()
    ensures NoSections([""])
  {
  }

  lemma UpToNextSection(lines: seq<string>, next: seq<string>)
    requires NoSections(lines) && (next == [] || IsSectionLine(next[0]))
    ensures UpToSection(lines + next) == lines
  {
    UpToNext(lines, next);
  }

  /** Reading the note a layout was printed into gives back exactly that layout: the parsed rows are
      accepted by `build_paths`, which returns it, so the folder structure counts as unchanged. */
  lemma FoldersReadBack(
    l: Layout, w: Wording, base: Layout, before: seq<string>, title: string, intro: seq<string>, next: seq<string>)
    requires ValidLayout(l) && Unprotected(l) && Printable(l) && WordingOk(w)
    requires (forall i | 0 <= i < |before| :: !IsFoldersLine(before[i])) && IsFoldersLine(title)
    requires (forall i | 0 <= i < |intro| :: Plain(intro[i])) && (next == [] || IsSectionLine(next[0]))
    ensures var t := TakeRows(NO_TABLE, FolderRegion(before + (SectionLines(l, w, title, intro) + next)));
            t == TableOf(l) && Acceptable(ToConfig(t, base)) && AsLayout(ToConfig(t, base)) == l
  {
    hide *;
    SectionRegion(l, w, before, title, intro, next);
    BlankPlain();
    PlainPassed(NO_TABLE, intro);
    TableReadsBack(l, w);
    TakeRowsConcat(NO_TABLE, intro, TableLines(l, w) + [""]);
    TakeRowsConcat(NO_TABLE, TableLines(l, w), [""]);
    PlainPassed(TableOf(l), [""]);
    TableAccepted(l, base);
  }
}
