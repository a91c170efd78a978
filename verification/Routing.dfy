/** Where a note belongs (`layout_routing.py`). */
module Routing {
  import opened Text
  import opened VaultPaths
  import opened VaultLayout

  datatype Decision = Dest(dir: Path) | Review(reason: string)

  /** What routing reads of a note's frontmatter; text fields are already stripped, "" when absent. */
  datatype Meta = Meta(noteType: string, domain: string, parent: string)

  // ---- names ----

  function Before(s: string, c: char): string {
    if s == "" || s[0] == c then "" else [s[0]] + Before(s[1..], c)
  }

  /** `s.split(c, 1)[-1]` */
  function AfterFirst(s: string, c: char): string {
    if c !in s then s else if s[0] == c then s[1..] else AfterFirst(s[1..], c)
  }

  /** `_wikilink_name`. */
  function WikilinkName(value: string): string {
    if |value| >= 4 && "[[" <= value && value[|value| - 2..] == "]]"
    then Strip(AfterFirst(Before(value[2..|value| - 2], '|'), '/'))
    else value
  }

  predicate SegmentChar(c: char) {
    'A' <= c <= 'Z' || 'a' <= c <= 'z' || '0' <= c <= '9' || c == ' ' || c == '_' || c == '-'
  }

  function KeepSegmentChars(s: string): (r: string)
    ensures forall i | 0 <= i < |r| :: SegmentChar(r[i])
  {
    if s == "" then "" else (if SegmentChar(s[0]) then [s[0]] else "") + KeepSegmentChars(s[1..])
  }

  function Hyphenate(s: string): (r: string)
    ensures |r| == |s| && forall i | 0 <= i < |r| :: r[i] == if s[i] == ' ' then '-' else s[i]
  {
    seq(|s|, i requires 0 <= i < |s| => if s[i] == ' ' then '-' else s[i])
  }

  /** `_safe_segment`. */
  function SafeSegment(value: string): string {
    var cleaned := Hyphenate(Strip(KeepSegmentChars(value)));
    if cleaned == "" then "Project" else cleaned
  }

  lemma SegmentNormal(s: string)
    requires s != "" && forall i | 0 <= i < |s| :: SegmentChar(s[i])
    ensures Normal([s])
  {
    assert !SegmentChar('.') && !SegmentChar('/');
    hide SegmentChar;
    assert s[0] != '.';
  }

  /** A cleaned project name is always one legal folder name. */
  lemma SafeSegmentIsFolder(value: string)
    ensures Normal([SafeSegment(value)])
    ensures forall i | 0 <= i < |SafeSegment(value)| :: SegmentChar(SafeSegment(value)[i]) && SafeSegment(value)[i] != ' '
  {
    assert SegmentChar('-') && forall i | 0 <= i < |"Project"| :: SegmentChar("Project"[i]) && "Project"[i] != ' ';
    hide SegmentChar, KeepSegmentChars, Strip, Normal;
    var kept := KeepSegmentChars(value);
    var t := Strip(kept);
    StripWithin(kept);
    forall i | 0 <= i < |t| ensures SegmentChar(t[i]) {
      var j :| 0 <= j < |kept| && kept[j] == t[i];
    }
    SegmentNormal(SafeSegment(value));
  }

  lemma NormalExtend(root: Path, seg: string)
    requires Normal(root) && Normal([seg])
    ensures Normal(root + [seg])
  {
    assert [seg][0] == seg;
  }

  // ---- routing ----

  function DomainFolder(domains: seq<(string, Path)>, domain: string): (r: Option<Path>)
    ensures r.Some? ==> exists i | 0 <= i < |domains| :: domains[i] == (domain, r.value)
    ensures r.None? ==> forall i | 0 <= i < |domains| :: domains[i].0 != domain
  {
    if domains == [] then None
    else if domains[|domains| - 1].0 == domain then Some(domains[|domains| - 1].1)
    else DomainFolder(domains[..|domains| - 1], domain)
  }

  function AdministrativeRole(domain: string): Option<Role> {
    if domain == "health" then Some(Health)
    else if domain == "household" then Some(Home)
    else if domain == "finance" then Some(Finance)
    else if domain == "travel" then Some(Travel)
    else if domain == "administration" then Some(AdministrativeGeneral)
    else None
  }

  predicate Routable(noteType: string) {
    noteType in {"project", "source", "person", "organization", "meeting", "task", "note", "daily"}
  }

  function InFolder(root: Path, project: string): Path {
    if project == "" then root else root + [SafeSegment(project)]
  }

  /** `route_note`. */
  function RouteNote(l: Layout, stem: string, m: Meta): Decision {
    var parent := WikilinkName(m.parent);
    if !Routable(m.noteType) then Review("note type is missing or not routable")
    else if m.noteType == "person" then
      if parent == "Contacts" then Dest(l.content.At(Contacts))
      else if parent == "Authors" then Dest(l.content.At(Authors))
      else Review("person requires parent [[Contacts]] or [[Authors]]")
    else if m.noteType == "organization" then Dest(l.content.At(Organizations))
    else if m.noteType == "source" then Dest(l.content.At(Sources))
    else
      var project := if m.noteType == "project" then stem else parent;
      match DomainFolder(l.domains, m.domain)
      case Some(root) => Dest(InFolder(root, project))
      case None =>
        if m.domain == "work" then Dest(InFolder(l.content.At(Work), project))
        else match AdministrativeRole(m.domain)
          case Some(role) => Dest(InFolder(l.content.At(role), project))
          case None =>
            if m.noteType == "project" || project != "" then
              if m.domain == "" then Review("non-work project routing requires an approved domain")
              else Dest(l.content.At(Thoughts) + [SafeSegment(m.domain), SafeSegment(project)])
            else Dest(l.content.At(Thoughts))
  }

  /** Every folder of the layout is a normalised path. */
  ghost predicate NormalFolders(l: Layout) {
    && Normal(l.system) && Normal(l.inbox) && Normal(l.dashboards)
    && (forall r: Role :: Normal(l.content.At(r)))
    && (forall i | 0 <= i < |l.domains| :: Normal(l.domains[i].1))
    && (forall i | 0 <= i < |l.customs| :: Normal(l.customs[i].path))
  }

  /** A folder notes may be sorted into: legal, and outside the system, inbox and dashboards folders. */
  predicate Fileable(l: Layout, dir: Path) {
    Normal(dir) && ApartFromReserved(dir, l)
  }

  lemma FileableBelow(l: Layout, root: Path, dir: Path)
    requires Fileable(l, root) && Under(dir, root) && Normal(dir)
    ensures Fileable(l, dir)
  {
    ApartBelow(root, l.system, dir);
    ApartBelow(root, l.inbox, dir);
    ApartBelow(root, l.dashboards, dir);
  }

  /** The folder a decision's folder lies in, named independently of how it was reached: the note
      type decides for people, organizations and sources, then the domain. */
  ghost predicate HomeFolder(l: Layout, m: Meta, root: Path) {
    if m.noteType == "person" then root == l.content.At(Contacts) || root == l.content.At(Authors)
    else if m.noteType == "organization" then root == l.content.At(Organizations)
    else if m.noteType == "source" then root == l.content.At(Sources)
    else if exists i | 0 <= i < |l.domains| :: l.domains[i].0 == m.domain then
      exists i | 0 <= i < |l.domains| :: l.domains[i] == (m.domain, root)
    else if m.domain == "work" then root == l.content.At(Work)
    else if AdministrativeRole(m.domain).Some? then root == l.content.At(AdministrativeRole(m.domain).value)
    else root == l.content.At(Thoughts)
  }

  /** In any valid layout a routed note is filed into the home folder of its type and domain, outside
      the system, inbox and dashboards folders. */
  lemma RouteLands(l: Layout, stem: string, m: Meta)
    requires ValidLayout(l) && NormalFolders(l) && RouteNote(l, stem, m).Dest?
    ensures Fileable(l, RouteNote(l, stem, m).dir)
    ensures exists root :: HomeFolder(l, m, root) && Under(RouteNote(l, stem, m).dir, root)
  {
    hide WikilinkName, SafeSegment, ContentDirs.At, Apart;
    var dir := RouteNote(l, stem, m).dir;
    var root := RouteRoot(l, stem, m);
    var project := if m.noteType == "project" then stem else WikilinkName(m.parent);
    SafeSegmentIsFolder(m.domain);
    SafeSegmentIsFolder(project);
    NormalExtend(root, SafeSegment(m.domain));
    NormalExtend(root, SafeSegment(project));
    NormalExtend(root + [SafeSegment(m.domain)], SafeSegment(project));
    assert root + [SafeSegment(m.domain), SafeSegment(project)] == root + [SafeSegment(m.domain)] + [SafeSegment(project)];
    assert dir == root || dir == root + [SafeSegment(project)]
        || dir == root + [SafeSegment(m.domain), SafeSegment(project)];
    FileableBelow(l, root, dir);
  }

  lemma RouteRoot(l: Layout, stem: string, m: Meta) returns (root: Path)
    requires ValidLayout(l) && NormalFolders(l) && RouteNote(l, stem, m).Dest?
    ensures HomeFolder(l, m, root) && Fileable(l, root)
    ensures var project := if m.noteType == "project" then stem else WikilinkName(m.parent);
            RouteNote(l, stem, m).dir in
              {root, root + [SafeSegment(project)], root + [SafeSegment(m.domain), SafeSegment(project)]}
  {
    hide WikilinkName, SafeSegment, ContentDirs.At, Apart, DomainKeyOk;
    var d := DomainFolder(l.domains, m.domain);
    if m.noteType == "person" {
      root := RouteNote(l, stem, m).dir;
    } else if m.noteType == "organization" {
      root := l.content.At(Organizations);
    } else if m.noteType == "source" {
      root := l.content.At(Sources);
    } else if d.Some? {
      root := d.value;
      var i :| 0 <= i < |l.domains| && l.domains[i] == (m.domain, root);
      assert DomainOk(l, i);
    } else if m.domain == "work" {
      root := l.content.At(Work);
    } else if AdministrativeRole(m.domain).Some? {
      root := l.content.At(AdministrativeRole(m.domain).value);
    } else {
      root := l.content.At(Thoughts);
    }
  }

  // ---- the routing table, row by row ----

  /** The last entry for a domain. */
  ghost predicate LastEntry(domains: seq<(string, Path)>, domain: string, root: Path, i: int) {
    0 <= i < |domains| && domains[i] == (domain, root) && forall j | i < j < |domains| :: domains[j].0 != domain
  }

  /** The folder configured for a domain: as in a mapping, the last entry with its key counts. */
  ghost predicate ConfiguredFor(l: Layout, domain: string, root: Path) {
    exists i :: LastEntry(l.domains, domain, root, i)
  }

  /** The folder a domain has of its own: a configured one, or else the role that stands for it. */
  ghost predicate OwnFolder(l: Layout, domain: string, root: Path) {
    || ConfiguredFor(l, domain, root)
    || (&& (forall i | 0 <= i < |l.domains| :: l.domains[i].0 != domain)
        && (|| (domain == "work" && root == l.content.work)
            || (domain == "health" && root == l.content.health)
            || (domain == "household" && root == l.content.home)
            || (domain == "finance" && root == l.content.finance)
            || (domain == "travel" && root == l.content.travel)
            || (domain == "administration" && root == l.content.administrativeGeneral)))
  }

  /** What the table says: the folder of a note of a type, with a stem, a domain and a parent name. */
  ghost predicate Filed(l: Layout, noteType: string, stem: string, domain: string, parent: string, dir: Path) {
    || (noteType == "person" && parent == "Contacts" && dir == l.content.contacts)
    || (noteType == "person" && parent == "Authors" && dir == l.content.authors)
    || (noteType == "organization" && dir == l.content.organizations)
    || (noteType == "source" && dir == l.content.sources)
    || (noteType == "project" && FiledUnder(l, domain, stem, true, dir))
    || (noteType in {"meeting", "task", "note", "daily"} && FiledUnder(l, domain, parent, false, dir))
  }

  /** A note of a project, or of none when `project` is empty: into the folder of its domain, below it in a
      folder for the project; without such a folder among the thoughts, below the domain. */
  ghost predicate FiledUnder(l: Layout, domain: string, project: string, isProject: bool, dir: Path) {
    || (exists root :: OwnFolder(l, domain, root) && dir == if project == "" then root else root + [SafeSegment(project)])
    || (&& !(exists root :: OwnFolder(l, domain, root))
        && (if isProject || project != ""
            then domain != "" && dir == l.content.thoughts + [SafeSegment(domain), SafeSegment(project)]
            else dir == l.content.thoughts))
  }

  lemma {:induction false} DomainFolderIs(domains: seq<(string, Path)>, domain: string, root: Path)
    ensures DomainFolder(domains, domain) == Some(root) <==> exists i :: LastEntry(domains, domain, root, i)
    ensures DomainFolder(domains, domain) == None <==> forall i | 0 <= i < |domains| :: domains[i].0 != domain
  {
    if domains != [] {
      var n := |domains| - 1;
      DomainFolderIs(domains[..n], domain, root);
      if domains[n].0 != domain {
        forall i ensures LastEntry(domains, domain, root, i) <==> LastEntry(domains[..n], domain, root, i) {}
      } else if domains[n].1 == root {
        assert LastEntry(domains, domain, root, n);
      }
    }
  }

  function Own(l: Layout, domain: string): Option<Path> {
    match DomainFolder(l.domains, domain)
    case Some(d) => Some(d)
    case None =>
      if domain == "work" then Some(l.content.At(Work))
      else match AdministrativeRole(domain) case Some(r) => Some(l.content.At(r)) case None => None
  }

  lemma OwnFolderIs(l: Layout, domain: string, root: Path)
    ensures OwnFolder(l, domain, root) <==> Own(l, domain) == Some(root)
  {
    DomainFolderIs(l.domains, domain, root);
    hide DomainFolder;
  }

  lemma FiledUnderIs(l: Layout, domain: string, project: string, isProject: bool, dir: Path)
    ensures FiledUnder(l, domain, project, isProject, dir) <==>
              match Own(l, domain)
              case Some(root) => dir == InFolder(root, project)
              case None =>
                if isProject || project != "" then domain != "" && dir == l.content.At(Thoughts) + [SafeSegment(domain), SafeSegment(project)]
                else dir == l.content.At(Thoughts)
  {
    forall root: Path ensures OwnFolder(l, domain, root) <==> Own(l, domain) == Some(root) { OwnFolderIs(l, domain, root); }
    hide SafeSegment, OwnFolder, Own;
    if Own(l, domain).Some? { assert OwnFolder(l, domain, Own(l, domain).value); }
  }

  /** A note is filed, and where, exactly as the table says; any other note is left for review. */
  lemma RouteExactly(l: Layout, stem: string, m: Meta, dir: Path)
    ensures RouteNote(l, stem, m) == Dest(dir) <==> Filed(l, m.noteType, stem, m.domain, WikilinkName(m.parent), dir)
  {
    FiledUnderIs(l, m.domain, stem, true, dir);
    FiledUnderIs(l, m.domain, WikilinkName(m.parent), false, dir);
    hide WikilinkName, SafeSegment, FiledUnder, DomainFolder;
  }

  // ---- the names the table compares ----

  lemma {:induction false} BeforeIs(head: string, c: char, tail: string)
    requires c !in head
    ensures Before(head + [c] + tail, c) == head && Before(head, c) == head
  {
    if head != "" {
      assert (head + [c] + tail)[1..] == head[1..] + [c] + tail;
      BeforeIs(head[1..], c, tail);
    }
  }

  lemma {:induction false} AfterFirstIs(head: string, c: char, tail: string)
    requires c !in head
    ensures AfterFirst(head + [c] + tail, c) == tail && AfterFirst(head, c) == head
  {
    var s := head + [c] + tail;
    assert s[|head|] == c && c in s;
    if head == "" {
      assert s[1..] == tail;
    } else {
      assert s[0] == head[0] && s[1..] == head[1..] + [c] + tail;
      AfterFirstIs(head[1..], c, tail);
    }
  }

  /** The name of a link: without its alias and without its first folder. */
  lemma LinkNameIs(folder: string, name: string, alias: string)
    requires '/' !in folder && '|' !in folder && '|' !in name
    ensures '/' !in name ==> WikilinkName("[[" + name + "]]") == Strip(name)
    ensures '/' !in name ==> WikilinkName("[[" + (name + ['|'] + alias) + "]]") == Strip(name)
    ensures WikilinkName("[[" + (folder + ['/'] + name) + "]]") == Strip(name)
    ensures WikilinkName("[[" + (folder + ['/'] + name + ['|'] + alias) + "]]") == Strip(name)
  {
    hide Strip;
    var path := folder + ['/'] + name;
    BeforeIs(name, '|', alias);
    BeforeIs(path, '|', alias);
    if '/' !in name { AfterFirstIs(name, '/', ""); }
    AfterFirstIs(folder, '/', name);
    hide Before, AfterFirst;
    LinkInside(name);
    LinkInside(name + ['|'] + alias);
    LinkInside(path);
    LinkInside(path + ['|'] + alias);
  }

  lemma LinkInside(inner: string)
    ensures WikilinkName("[[" + inner + "]]") == Strip(AfterFirst(Before(inner, '|'), '/'))
  {
    var value := "[[" + inner + "]]";
    assert value[2..|value| - 2] == inner && value[|value| - 2..] == "]]";
    hide Strip, AfterFirst, Before;
  }

  /** What is not a link is its own name. */
  lemma PlainNameIs(value: string)
    requires !("[[" <= value) || |value| < 2 || value[|value| - 2..] != "]]"
    ensures WikilinkName(value) == value
  {
  }

  /** The three rows a person can fall under. */
  lemma PersonsRouted(l: Layout, stem: string, m: Meta)
    requires m.noteType == "person"
    ensures m.parent == "[[Contacts]]" ==> RouteNote(l, stem, m) == Dest(l.content.contacts)
    ensures m.parent == "[[Authors]]" ==> RouteNote(l, stem, m) == Dest(l.content.authors)
    ensures RouteNote(l, stem, m).Dest? ==> WikilinkName(m.parent) in {"Contacts", "Authors"}
  {
    ContactsLink();
    hide WikilinkName;
  }

  lemma ContactsLink()
    ensures WikilinkName("[[Contacts]]") == "Contacts" && WikilinkName("[[Authors]]") == "Authors"
  {
    hide *;
    LinkInside("Contacts");
    LinkInside("Authors");
    PlainStripped();
    NoMarks("Contacts");
    NoMarks("Authors");
    assert "[[" + "Contacts" + "]]" == "[[Contacts]]" && "[[" + "Authors" + "]]" == "[[Authors]]";
  }

  lemma NoMarks(name: string)
    requires '|' !in name && '/' !in name
    ensures AfterFirst(Before(name, '|'), '/') == name
  {
    BeforeIs(name, '|', "");
    AfterFirstIs(name, '/', "");
    hide Before, AfterFirst;
  }

  lemma PlainStripped()
    ensures Strip("Contacts") == "Contacts" && Strip("Authors") == "Authors"
  {
    StripTrimmed("Contacts");
    StripTrimmed("Authors");
    hide Strip;
  }

  /** A cleaned name keeps the letters, digits, spaces, underscores and hyphens, in order. */
  lemma {:induction false} KeptChars(s: string, c: char, t: string)
    ensures KeepSegmentChars("") == ""
    ensures KeepSegmentChars(s + [c] + t) ==
              KeepSegmentChars(s)
            + (if 'A' <= c <= 'Z' || 'a' <= c <= 'z' || '0' <= c <= '9' || c in " _-" then [c] else "") + KeepSegmentChars(t)
  {
    if s == "" {
      assert ("" + [c] + t)[1..] == t;
    } else {
      assert (s + [c] + t)[1..] == s[1..] + [c] + t;
      KeptChars(s[1..], c, t);
    }
  }

  /** What is kept loses the white space around it, and then has hyphens for its spaces; a name of which
      nothing is left is called `Project`. */
  lemma SafeSegmentIs(s: string, before: string, name: string, after: string)
    requires KeepSegmentChars(s) == before + name + after && AllSpace(before) && AllSpace(after) && Trimmed(name)
    ensures |SafeSegment(s)| == if name == "" then |"Project"| else |name|
    ensures name == "" ==> SafeSegment(s) == "Project"
    ensures forall i | 0 <= i < |name| :: SafeSegment(s)[i] == if name[i] == ' ' then '-' else name[i]
  {
    StripPadded(before, name, after);
    hide Strip, KeepSegmentChars, IsSpace;
  }

  // ---- custom routing ----

  /** The model's answer for a note: no usable answer, or a folder and whether it needs review. */
  datatype Choice = NoChoice | Chosen(folder: Path, needsReview: bool)

  datatype Mode = Mode(custom: bool, fallbackDeterministic: bool)

  predicate IsCustom(l: Layout, p: Path) {
    exists i | 0 <= i < |l.customs| :: l.customs[i].path == p
  }

  /** `assign_custom_destination`, with the model's answer as a parameter. */
  function AssignCustom(l: Layout, mode: Mode, stem: string, m: Meta, choice: Choice): Decision {
    if choice.Chosen? && IsCustom(l, choice.folder) && !choice.needsReview then Dest(choice.folder)
    else if mode.fallbackDeterministic then RouteNote(l, stem, m)
    else Review("model folder assignment needs review")
  }

  /** How the inbox sort decides: custom routing when enabled, a fresh recorded folder first. */
  function Decide(l: Layout, mode: Mode, stem: string, m: Meta, recorded: Option<Path>, choice: Choice): Decision {
    if mode.custom && l.customs != [] then
      if recorded.Some? && IsCustom(l, recorded.value) then Dest(recorded.value)
      else AssignCustom(l, mode, stem, m, choice)
    else RouteNote(l, stem, m)
  }

  /** Whatever the model answers, a note is only ever sorted into a folder outside the system, inbox
      and dashboards folders. */
  lemma DecisionLands(l: Layout, mode: Mode, stem: string, m: Meta, recorded: Option<Path>, choice: Choice)
    requires ValidLayout(l) && NormalFolders(l) && Decide(l, mode, stem, m, recorded, choice).Dest?
    ensures Fileable(l, Decide(l, mode, stem, m, recorded, choice).dir)
  {
    hide RouteNote;
    if Decide(l, mode, stem, m, recorded, choice) == RouteNote(l, stem, m) {
      RouteLands(l, stem, m);
    }
  }

  /** Where a note is sorted, exactly. With custom routing on, and folders declared: into the folder recorded
      for it, if that is a declared one; else into the declared folder the model chose without needing review;
      else by the table, when that is the fallback. Without it, by the table. */
  lemma DecideExactly(l: Layout, mode: Mode, stem: string, m: Meta, recorded: Option<Path>, choice: Choice, dir: Path)
    ensures var declared := set i | 0 <= i < |l.customs| :: l.customs[i].path;
            var byTable := Filed(l, m.noteType, stem, m.domain, WikilinkName(m.parent), dir);
            Decide(l, mode, stem, m, recorded, choice) == Dest(dir) <==>
              if !mode.custom || declared == {} then byTable
              else if exists p | p in declared :: recorded == Some(p) then recorded == Some(dir)
              else if exists p | p in declared :: choice == Chosen(p, false) then choice == Chosen(dir, false)
              else mode.fallbackDeterministic && byTable
  {
    RouteExactly(l, stem, m, dir);
    hide RouteNote, Filed, WikilinkName;
    var declared := set i | 0 <= i < |l.customs| :: l.customs[i].path;
    if l.customs != [] { assert l.customs[0].path in declared; }
    forall p: Path ensures IsCustom(l, p) <==> p in declared {}
  }
}
