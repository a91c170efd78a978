/** The folder layout and its validation (`paths.py`). */
module VaultLayout {
  import opened Text
  import opened VaultPaths

  /** A path as written in the configuration, split into its parts. */
  datatype RawPath = RawPath(absolute: bool, parts: Path)

  datatype Role =
    | People | Contacts | Authors | Organizations | Work | Administrative | Health | Home | Finance
    | Travel | AdministrativeGeneral | Thoughts | Sources

  const ROLE_COUNT := 13

  function RoleIndex(r: Role): (i: nat)
    ensures i < ROLE_COUNT
  {
    match r
    case People => 0 case Contacts => 1 case Authors => 2 case Organizations => 3 case Work => 4
    case Administrative => 5 case Health => 6 case Home => 7 case Finance => 8 case Travel => 9
    case AdministrativeGeneral => 10 case Thoughts => 11 case Sources => 12
  }

  function RoleAt(i: nat): (r: Role)
    requires i < ROLE_COUNT
    ensures RoleIndex(r) == i
  {
    if i == 0 then People else if i == 1 then Contacts else if i == 2 then Authors
    else if i == 3 then Organizations else if i == 4 then Work else if i == 5 then Administrative
    else if i == 6 then Health else if i == 7 then Home else if i == 8 then Finance
    else if i == 9 then Travel else if i == 10 then AdministrativeGeneral
    else if i == 11 then Thoughts else Sources
  }

  lemma RoleIndexInjective(r: Role, s: Role)
    requires RoleIndex(r) == RoleIndex(s)
    ensures r == s
  {
  }

  /** The roles whose folders must be distinct and non-nested. */
  predicate TopLevel(r: Role) {
    r.People? || r.Organizations? || r.Work? || r.Administrative? || r.Thoughts? || r.Sources?
  }

  predicate Administrational(r: Role) {
    r.Health? || r.Home? || r.Finance? || r.Travel? || r.AdministrativeGeneral?
  }

  datatype CustomFolder = CustomFolder(path: Path, description: string)

  /** One folder for each content role. */
  datatype ContentDirs = ContentDirs(
    people: Path, contacts: Path, authors: Path, organizations: Path, work: Path, administrative: Path,
    health: Path, home: Path, finance: Path, travel: Path, administrativeGeneral: Path, thoughts: Path, sources: Path)
  {
    function At(r: Role): Path {
      match r
      case People => people case Contacts => contacts case Authors => authors
      case Organizations => organizations case Work => work case Administrative => administrative
      case Health => health case Home => home case Finance => finance case Travel => travel
      case AdministrativeGeneral => administrativeGeneral case Thoughts => thoughts case Sources => sources
    }

    function With(r: Role, p: Path): (d: ContentDirs)
      ensures forall k: Role :: d.At(k) == if k == r then p else At(k)
    {
      match r
      case People => this.(people := p) case Contacts => this.(contacts := p) case Authors => this.(authors := p)
      case Organizations => this.(organizations := p) case Work => this.(work := p)
      case Administrative => this.(administrative := p) case Health => this.(health := p) case Home => this.(home := p)
      case Finance => this.(finance := p) case Travel => this.(travel := p)
      case AdministrativeGeneral => this.(administrativeGeneral := p)
      case Thoughts => this.(thoughts := p) case Sources => this.(sources := p)
    }
  }

  lemma SameContent(c: ContentDirs, d: ContentDirs)
    requires forall r: Role :: c.At(r) == d.At(r)
    ensures c == d
  {
    assert c.At(People) == d.At(People) && c.At(Contacts) == d.At(Contacts) && c.At(Authors) == d.At(Authors)
        && c.At(Organizations) == d.At(Organizations) && c.At(Work) == d.At(Work)
        && c.At(Administrative) == d.At(Administrative) && c.At(Health) == d.At(Health) && c.At(Home) == d.At(Home)
        && c.At(Finance) == d.At(Finance) && c.At(Travel) == d.At(Travel)
        && c.At(AdministrativeGeneral) == d.At(AdministrativeGeneral)
        && c.At(Thoughts) == d.At(Thoughts) && c.At(Sources) == d.At(Sources);
  }

  datatype Layout = Layout(
    system: Path, inbox: Path, dashboards: Path,
    content: ContentDirs, domains: seq<(string, Path)>, customs: seq<CustomFolder>)

  datatype Result<+T> = Ok(value: T) | Err(message: string)

  const SYSTEM_DEFAULT: Path := ["99 System"]
  const INBOX_DEFAULT: Path := ["00 Inbox"]
  const DASHBOARDS_DEFAULT: Path := ["01 Dashboards"]

  const DEFAULT_CONTENT := ContentDirs(
    ["02 People"], ["02 People", "02.01 Contacts"], ["02 People", "02.02 Authors"],
    ["03 Organizations"], ["04 Work"], ["05 Administrative"],
    ["05 Administrative", "05.01 Health"], ["05 Administrative", "05.02 Home"],
    ["05 Administrative", "05.03 Finance"], ["05 Administrative", "05.04 Travel"],
    ["05 Administrative", "05.05 General"], ["06 Thoughts"], ["07 Sources"])

  function DefaultContent(role: Role): (p: Path)
    ensures p != []
  {
    DEFAULT_CONTENT.At(role)
  }

  /** A key of `content_dirs`: one of the thirteen role names, or anything else. */
  datatype ContentKey = Known(role: Role) | Unknown(key: string)

  /** Domains already backed by a content role. */
  function RoleDomains(): set<string> {
    {"work", "health", "household", "finance", "travel", "administration"}
  }

  const PROTECTED: set<string> := {".git", ".obsidian", ".pi-vault"}

  // ---- what a valid layout is ----

  predicate PathOk(raw: RawPath) {
    !raw.absolute && raw.parts != [] && ".." !in raw.parts && raw.parts[0] !in PROTECTED
  }

  predicate SlugChar(c: char) {
    'a' <= c <= 'z' || '0' <= c <= '9'
  }

  predicate DomainKeyOk(key: string) {
    && (forall i | 0 <= i < |key| :: key[i] == '_' || SlugChar(key[i]))
    && (exists i | 0 <= i < |key| :: SlugChar(key[i]))
    && key !in RoleDomains()
  }

  predicate ApartFromReserved(p: Path, l: Layout) {
    Apart(p, l.system) && Apart(p, l.inbox) && Apart(p, l.dashboards)
  }

  predicate RootsOk(system: Path, inbox: Path, dashboards: Path) {
    Apart(system, inbox) && Apart(system, dashboards) && Apart(inbox, dashboards)
  }

  ghost predicate ContentOk(l: Layout) {
    && (forall r: Role :: ApartFromReserved(l.content.At(r), l))
    && (forall r, s | TopLevel(r) && TopLevel(s) && r != s :: Apart(l.content.At(r), l.content.At(s)))
    && Under(l.content.At(Contacts), l.content.At(People)) && Under(l.content.At(Authors), l.content.At(People))
    && (forall r | Administrational(r) :: Under(l.content.At(r), l.content.At(Administrative)))
  }

  ghost predicate DomainsOk(l: Layout) {
    && (forall i | 0 <= i < |l.domains| :: DomainOk(l, i))
    && (forall i, j | 0 <= i < j < |l.domains| :: Apart(l.domains[i].1, l.domains[j].1))
  }

  ghost predicate CustomsOk(l: Layout) {
    && (forall i | 0 <= i < |l.customs| :: ApartFromReserved(l.customs[i].path, l))
    && (forall i, j | 0 <= i < j < |l.customs| :: l.customs[i].path != l.customs[j].path)
  }

  /** The guarantees every accepted layout gives the rest of the program. */
  ghost predicate ValidLayout(l: Layout) {
    RootsOk(l.system, l.inbox, l.dashboards) && ContentOk(l) && DomainsOk(l) && CustomsOk(l)
  }

  // ---- what the configuration asks for ----

  datatype Config = Config(
    system: RawPath, inbox: RawPath, dashboards: RawPath,
    content: seq<(ContentKey, RawPath)>, domains: seq<(string, RawPath)>, customs: seq<(RawPath, string)>)

  function Configured(content: seq<(ContentKey, RawPath)>): ContentDirs {
    if content == [] then DEFAULT_CONTENT
    else
      var rest := Configured(content[..|content| - 1]);
      match content[|content| - 1].0
      case Unknown(_) => rest
      case Known(role) => rest.With(role, content[|content| - 1].1.parts)
  }

  function DomainsOf(raw: seq<(string, RawPath)>): (r: seq<(string, Path)>)
    ensures |r| == |raw| && forall i | 0 <= i < |raw| :: r[i] == (raw[i].0, raw[i].1.parts)
  {
    seq(|raw|, i requires 0 <= i < |raw| => (raw[i].0, raw[i].1.parts))
  }

  function CustomsOf(raw: seq<(RawPath, string)>): (r: seq<CustomFolder>)
    ensures |r| == |raw| && forall i | 0 <= i < |raw| :: r[i] == CustomFolder(raw[i].0.parts, raw[i].1)
  {
    seq(|raw|, i requires 0 <= i < |raw| => CustomFolder(raw[i].0.parts, raw[i].1))
  }

  function AsLayout(c: Config): Layout {
    Layout(c.system.parts, c.inbox.parts, c.dashboards.parts, Configured(c.content),
           DomainsOf(c.domains), CustomsOf(c.customs))
  }

  predicate PathsOk(c: Config) {
    && PathOk(c.system) && PathOk(c.inbox) && PathOk(c.dashboards)
    && (forall i | 0 <= i < |c.content| :: c.content[i].0.Known? && PathOk(c.content[i].1))
    && (forall i | 0 <= i < |c.domains| :: PathOk(c.domains[i].1))
    && (forall i | 0 <= i < |c.customs| :: PathOk(c.customs[i].0))
  }

  ghost predicate Acceptable(c: Config) {
    PathsOk(c) && ValidLayout(AsLayout(c))
  }

  // ---- the validator ----

  method AllApart(paths: seq<Path>) returns (ok: bool)
    ensures ok <==> forall i, j | 0 <= i < j < |paths| :: Apart(paths[i], paths[j])
  {
    for index := 0 to |paths|
      invariant forall i, j | 0 <= i < j < |paths| && i < index :: Apart(paths[i], paths[j])
    {
      for k := index + 1 to |paths|
        invariant forall j | index < j < k :: Apart(paths[index], paths[j])
      {
        if !Apart(paths[index], paths[k]) { return false; }
      }
    }
    return true;
  }

  method CheckRoots(system: Path, inbox: Path, dashboards: Path) returns (ok: bool)
    ensures ok <==> RootsOk(system, inbox, dashboards)
  {
    var roots := [system, inbox, dashboards];
    ok := AllApart(roots);
    assert ok ==> Apart(roots[0], roots[1]) && Apart(roots[0], roots[2]) && Apart(roots[1], roots[2]);
    assert !ok ==> exists i, j | 0 <= i < j < 3 :: !Apart(roots[i], roots[j]);
  }

  method ConfigureContent(content: seq<(ContentKey, RawPath)>) returns (r: Result<ContentDirs>)
    ensures r.Ok? <==> forall i | 0 <= i < |content| :: content[i].0.Known? && PathOk(content[i].1)
    ensures r.Ok? ==> r.value == Configured(content)
  {
    hide PathOk, DefaultContent;
    var configured := DEFAULT_CONTENT;
    for i := 0 to |content|
      invariant forall k | 0 <= k < i :: content[k].0.Known? && PathOk(content[k].1)
      invariant configured == Configured(content[..i])
    {
      if content[i].0.Unknown? { return Err("unknown content directory key"); }
      if !PathOk(content[i].1) { return Err("content_dirs path is not a vault folder"); }
      assert content[..i + 1][..i] == content[..i];
      configured := configured.With(content[i].0.role, content[i].1.parts);
    }
    assert content[..|content|] == content;
    return Ok(configured);
  }

  function TopAt(i: nat): (r: Role)
    requires i < 6
    ensures TopLevel(r) && TopRank(r) == i
  {
    if i == 0 then People else if i == 1 then Organizations else if i == 2 then Work
    else if i == 3 then Administrative else if i == 4 then Thoughts else Sources
  }

  function TopRank(r: Role): (i: nat)
    requires TopLevel(r)
    ensures i < 6
  {
    match r
    case People => 0 case Organizations => 1 case Work => 2
    case Administrative => 3 case Thoughts => 4 case Sources => 5
  }

  method CheckTopLevel(l: Layout) returns (ok: bool)
    ensures ok <==> forall r, s | TopLevel(r) && TopLevel(s) && r != s :: Apart(l.content.At(r), l.content.At(s))
  {
    var tops := seq(6, i requires 0 <= i < 6 => l.content.At(TopAt(i)));
    ok := AllApart(tops);
    hide Apart;
    if ok {
      forall r, s | TopLevel(r) && TopLevel(s) && r != s ensures Apart(l.content.At(r), l.content.At(s)) {
        assert tops[TopRank(r)] == l.content.At(r) && tops[TopRank(s)] == l.content.At(s);
        ApartSymmetric(l.content.At(r), l.content.At(s));
        assert TopRank(r) < TopRank(s) || TopRank(s) < TopRank(r);
      }
    } else {
      var i, j :| 0 <= i < j < 6 && !Apart(tops[i], tops[j]);
      assert TopAt(i) != TopAt(j);
    }
  }

  method CheckReserved(l: Layout) returns (ok: bool)
    ensures ok <==> forall r: Role :: ApartFromReserved(l.content.At(r), l)
  {
    for i := 0 to ROLE_COUNT
      invariant forall r: Role | RoleIndex(r) < i :: ApartFromReserved(l.content.At(r), l)
    {
      if !ApartFromReserved(l.content.At(RoleAt(i)), l) { return false; }
      forall r: Role | RoleIndex(r) == i ensures r == RoleAt(i) { RoleIndexInjective(r, RoleAt(i)); }
    }
    assert forall r: Role :: RoleIndex(r) < ROLE_COUNT;
    return true;
  }

  method CheckContent(l: Layout) returns (ok: bool)
    ensures ok <==> ContentOk(l)
  {
    hide ApartFromReserved, Apart, Under;
    ok := CheckReserved(l);
    if !ok { return; }
    ok := CheckTopLevel(l);
    if !ok { return; }
    var admin := l.content.At(Administrative);
    ok := Under(l.content.At(Contacts), l.content.At(People)) && Under(l.content.At(Authors), l.content.At(People))
       && Under(l.content.At(Health), admin) && Under(l.content.At(Home), admin) && Under(l.content.At(Finance), admin)
       && Under(l.content.At(Travel), admin) && Under(l.content.At(AdministrativeGeneral), admin);
  }

  ghost predicate DomainOk(l: Layout, i: nat)
    requires i < |l.domains|
  {
    && DomainKeyOk(l.domains[i].0) && ApartFromReserved(l.domains[i].1, l)
    && forall r: Role :: Apart(l.domains[i].1, l.content.At(r))
  }

  method ApartFromContent(p: Path, l: Layout) returns (ok: bool)
    ensures ok <==> forall r: Role :: Apart(p, l.content.At(r))
  {
    for i := 0 to ROLE_COUNT
      invariant forall r: Role | RoleIndex(r) < i :: Apart(p, l.content.At(r))
    {
      if !Apart(p, l.content.At(RoleAt(i))) { return false; }
      forall r: Role | RoleIndex(r) == i ensures r == RoleAt(i) { RoleIndexInjective(r, RoleAt(i)); }
    }
    assert forall r: Role :: RoleIndex(r) < ROLE_COUNT;
    return true;
  }

  method ValidateDomains(raw: seq<(string, RawPath)>, l: Layout) returns (r: Result<seq<(string, Path)>>)
    requires l.domains == DomainsOf(raw)
    ensures r.Ok? <==> (forall i | 0 <= i < |raw| :: PathOk(raw[i].1)) && DomainsOk(l)
    ensures r.Ok? ==> r.value == l.domains
  {
    var validated: seq<(string, Path)> := [];
    for n := 0 to |raw|
      invariant validated == l.domains[..n]
      invariant forall i | 0 <= i < n :: PathOk(raw[i].1)
      invariant forall i | 0 <= i < n :: DomainOk(l, i)
      invariant forall i, j | 0 <= i < j < n :: Apart(l.domains[i].1, l.domains[j].1)
    {
      var (key, value) := raw[n];
      assert l.domains[n] == (key, value.parts);
      if !DomainKeyOk(key) { assert !DomainOk(l, n); return Err("domain_folders key is not an allowed slug"); }
      if !PathOk(value) { return Err("domain_folders path is not a vault folder"); }
      for k := 0 to n
        invariant forall i | 0 <= i < k :: Apart(l.domains[i].1, l.domains[n].1)
      {
        if !Apart(validated[k].1, value.parts) {
          return Err("domain_folders paths must be distinct and non-nested");
        }
      }
      if !ApartFromReserved(value.parts, l) { assert !DomainOk(l, n); return Err("domain_folders paths cannot nest with reserved folders"); }
      var apart := ApartFromContent(value.parts, l);
      if !apart { assert !DomainOk(l, n); return Err("domain_folders paths cannot nest with content folders"); }
      validated := validated + [(key, value.parts)];
    }
    return Ok(validated);
  }

  method ValidateCustoms(raw: seq<(RawPath, string)>, l: Layout) returns (r: Result<seq<CustomFolder>>)
    requires l.customs == CustomsOf(raw)
    ensures r.Ok? <==> (forall i | 0 <= i < |raw| :: PathOk(raw[i].0)) && CustomsOk(l)
    ensures r.Ok? ==> r.value == l.customs
  {
    var validated: seq<CustomFolder> := [];
    var seen: seq<Path> := [];
    for n := 0 to |raw|
      invariant validated == l.customs[..n]
      invariant |seen| == n && forall i | 0 <= i < n :: seen[i] == l.customs[i].path
      invariant forall i | 0 <= i < n :: PathOk(raw[i].0) && ApartFromReserved(l.customs[i].path, l)
      invariant forall i, j | 0 <= i < j < n :: l.customs[i].path != l.customs[j].path
    {
      var folder := raw[n].0;
      assert l.customs[n] == CustomFolder(folder.parts, raw[n].1);
      if !PathOk(folder) { return Err("custom_folders path is not a vault folder"); }
      if !ApartFromReserved(folder.parts, l) { return Err("custom_folders cannot nest with reserved folders"); }
      if folder.parts in seen { return Err("duplicate custom_folders path"); }
      seen := seen + [folder.parts];
      validated := validated + [CustomFolder(folder.parts, raw[n].1)];
    }
    return Ok(validated);
  }

  method ValidateRoots(c: Config) returns (ok: bool)
    ensures ok <==>
      && PathOk(c.system) && PathOk(c.inbox) && PathOk(c.dashboards)
      && RootsOk(c.system.parts, c.inbox.parts, c.dashboards.parts)
  {
    if !PathOk(c.system) || !PathOk(c.inbox) || !PathOk(c.dashboards) { return false; }
    ok := CheckRoots(c.system.parts, c.inbox.parts, c.dashboards.parts);
  }

  method ValidateContent(c: Config, l: Layout) returns (r: Result<ContentDirs>)
    requires l.content == Configured(c.content)
    ensures r.Ok? <==> (forall i | 0 <= i < |c.content| :: c.content[i].0.Known? && PathOk(c.content[i].1)) && ContentOk(l)
    ensures r.Ok? ==> r.value == l.content
  {
    r := ConfigureContent(c.content);
    if r.Ok? {
      var ok := CheckContent(l);
      if !ok { r := Err("content_dirs are not a valid taxonomy"); }
    }
  }

  /** `build_paths`: it accepts exactly the acceptable configurations and returns what they ask for. */
  method BuildPaths(c: Config) returns (r: Result<Layout>)
    ensures r.Ok? <==> Acceptable(c)
    ensures r.Ok? ==> r.value == AsLayout(c)
  {
    hide ContentOk, DomainsOk, CustomsOk, RootsOk, PathOk;
    var l := AsLayout(c);
    var roots := ValidateRoots(c);
    var content := ValidateContent(c, l);
    var domains := ValidateDomains(c.domains, l);
    var customs := ValidateCustoms(c.customs, l);
    if !roots {
      r := Err("system_dir, inbox_dir, and dashboards_dir must be distinct, non-nested folders");
    } else if content.Err? {
      r := Err(content.message);
    } else if domains.Err? {
      r := Err(domains.message);
    } else if customs.Err? {
      r := Err(customs.message);
    } else {
      r := Ok(Layout(c.system.parts, c.inbox.parts, c.dashboards.parts, content.value, domains.value, customs.value));
    }
  }
}
