/** Proposing a layout from the folders a vault already has (`layout_suggestion.py`). */
module LayoutSuggestion {
  import opened Text
  import opened VaultPaths
  import opened VaultLayout

  /** What the scan says of one top-level folder: note count, commonest type and domain ("" if none). */
  datatype Info = Info(count: nat, topType: string, typeCount: nat, topDomain: string)

  // ---- classification ----

  function Keywords(role: Role): seq<string> {
    match role
    case People => ["people", "contacts", "person", "persons"]
    case Organizations => ["organization", "organizations", "orgs", "org", "companies", "company"]
    case Work => ["work", "projects", "project"]
    case Administrative => ["admin", "administrative", "administration"]
    case Thoughts => ["thoughts", "notes", "journal", "ideas", "reflections", "zettel", "fleeting", "daily"]
    case Sources => ["sources", "source", "reading", "references", "reference", "library", "books", "literature", "clippings"]
    case _ => []
  }

  predicate NameHints(lowered: string, role: Role) {
    exists k | 0 <= k < |Keywords(role)| :: Occurs(lowered, Keywords(role)[k])
  }

  function TypeRole(noteType: string): Option<Role> {
    if noteType == "person" then Some(People)
    else if noteType == "organization" then Some(Organizations)
    else if noteType == "source" then Some(Sources)
    else None
  }

  function Classify(name: string, info: Info): (r: Option<Role>)
    ensures r.Some? ==> TopLevel(r.value)
  {
    var lowered := LowerAscii(name);
    if NameHints(lowered, People) then Some(People)
    else if NameHints(lowered, Organizations) then Some(Organizations)
    else if NameHints(lowered, Work) then Some(Work)
    else if NameHints(lowered, Administrative) then Some(Administrative)
    else if NameHints(lowered, Thoughts) then Some(Thoughts)
    else if NameHints(lowered, Sources) then Some(Sources)
    else if info.topType != "" && info.typeCount * 2 >= info.count then
      if info.topType == "project" then
        if info.topDomain == "work" then Some(Work) else Some(Thoughts)
      else TypeRole(info.topType)
    else None
  }

  // ---- domain slugs ----

  function Collapse(s: string): (r: string)
    ensures forall i | 0 <= i < |r| :: r[i] == '_' || SlugChar(r[i])
  {
    if s == "" then ""
    else if SlugChar(s[0]) then [s[0]] + Collapse(s[1..])
    else if |s| > 1 && !SlugChar(s[1]) then Collapse(s[1..])
    else "_" + Collapse(s[1..])
  }

  function StripUnderscores(s: string): (r: string)
    ensures forall i | 0 <= i < |r| :: r[i] in s
    ensures r != "" ==> r[0] != '_' && r[|r| - 1] != '_'
  {
    if s == "" then "" else if s[0] == '_' then StripUnderscores(s[1..])
    else if s[|s| - 1] == '_' then StripUnderscores(s[..|s| - 1]) else s
  }

  function DomainSlug(name: string): (slug: string)
    ensures forall i | 0 <= i < |slug| :: slug[i] == '_' || SlugChar(slug[i])
    ensures slug != "" && SlugChar(slug[0])
  {
    var slug := StripUnderscores(Collapse(LowerAscii(name)));
    if slug == "" then "domain" else slug
  }

  /** The n-th slug tried for a folder: the plain one, then `_2`, `_3`, ... */
  function Candidate(base: string, n: nat): string
    requires n >= 1
  {
    if n == 1 then base else base + "_" + Decimal(n)
  }

  lemma CandidatesDiffer(base: string, m: nat, n: nat)
    requires 1 <= m < n
    ensures Candidate(base, m) != Candidate(base, n)
  {
    if Candidate(base, m) == Candidate(base, n) {
      var s := Candidate(base, n);
      assert s[|base| + 1..] == Decimal(n);
      if m == 1 {
        assert false;
      }
      assert s[|base| + 1..] == Decimal(m);
      DecimalInjective(m, n);
    }
  }

  predicate Taken(candidate: string, existing: set<string>) {
    candidate in RoleDomains() || candidate in existing
  }

  lemma CandidateKeyOk(base: string, n: nat)
    requires n >= 1 && base != "" && SlugChar(base[0])
    requires forall i | 0 <= i < |base| :: base[i] == '_' || SlugChar(base[i])
    requires Candidate(base, n) !in RoleDomains()
    ensures DomainKeyOk(Candidate(base, n))
  {
    hide RoleDomains, Decimal;
    assert Candidate(base, n)[0] == base[0];
  }

  /** `_unique_domain_slug`: the first free candidate. The search ends because the candidates are
      pairwise different and only finitely many names are taken. */
  method UniqueDomainSlug(name: string, existing: set<string>) returns (slug: string, ghost n: nat)
    ensures n >= 1 && slug == Candidate(DomainSlug(name), n)
    ensures !Taken(slug, existing) && forall k | 1 <= k < n :: Taken(Candidate(DomainSlug(name), k), existing)
    ensures slug == if n == 1 then DomainSlug(name) else DomainSlug(name) + "_" + Decimal(n)
    ensures slug !in existing && DomainKeyOk(slug)
  {
    hide RoleDomains, DomainSlug, Decimal;
    var base := DomainSlug(name);
    slug := base;
    var suffix := 2;
    n := 1;
    ghost var tried: set<string> := {};
    while slug in RoleDomains() || slug in existing
      invariant n >= 1 && suffix == n + 1 && slug == Candidate(base, n)
      invariant forall k | 1 <= k < n :: Taken(Candidate(base, k), existing)
      invariant tried == set k | 1 <= k < n :: Candidate(base, k)
      invariant tried <= RoleDomains() + existing
      decreases |RoleDomains() + existing - tried|
    {
      forall k | 1 <= k < n ensures Candidate(base, k) != slug { CandidatesDiffer(base, k, n); }
      ghost var taken := RoleDomains() + existing;
      assert slug in taken - tried;
      assert taken - (tried + {slug}) == (taken - tried) - {slug};
      tried := tried + {slug};
      slug := base + "_" + Decimal(suffix);
      suffix := suffix + 1;
      n := n + 1;
    }
    CandidateKeyOk(base, n);
  }

  // ---- the suggestion ----

  /** Top-level folders in visiting order: most notes first, then by name. */
  type Observed = seq<(string, Info)>

  /** Names a scan can report: distinct folder names, hidden tool folders excluded. */
  ghost predicate Scanned(obs: Observed) {
    && (forall i | 0 <= i < |obs| :: Normal([obs[i].0]) && obs[i].0 != ".git" && obs[i].0 != ".obsidian")
    && (forall i, j | 0 <= i < j < |obs| :: obs[i].0 != obs[j].0)
  }

  predicate Reserved(name: string) {
    name == SYSTEM_DEFAULT[0] || name == INBOX_DEFAULT[0] || name == DASHBOARDS_DEFAULT[0] || name == ".pi-vault"
  }

  /** Where one observed folder goes. */
  datatype Home = Skipped | InRole(role: Role) | InDomain(d: nat)

  /** The assignment read both ways: folder to home, and home back to the folder's index. */
  datatype Ledger = Ledger(homes: seq<Home>, roleAt: map<Role, nat>, domainAt: seq<nat>)

  ghost predicate HomeOk(obs: Observed, g: Ledger, claimed: map<Role, string>, domains: seq<(string, string)>, i: nat)
    requires i < |g.homes| <= |obs|
  {
    var (name, info) := obs[i];
    match g.homes[i]
    case Skipped => Reserved(name)
    case InRole(r) => !Reserved(name) && Classify(name, info) == Some(r) && r in g.roleAt && g.roleAt[r] == i
    case InDomain(d) =>
      && !Reserved(name) && d < |g.domainAt| && g.domainAt[d] == i
      // a folder becomes a domain only when it fits no role, or its role already went to an earlier one
      && (Classify(name, info).Some? ==>
            Classify(name, info).value in g.roleAt && g.roleAt[Classify(name, info).value] < i)
  }

  /** The visited folders are distributed: each non-reserved one has exactly one home, each claimed
      role and each slug exactly one folder, and the slugs are distinct legal domain keys. */
  ghost predicate Assigned(obs: Observed, g: Ledger, claimed: map<Role, string>, domains: seq<(string, string)>) {
    && |g.homes| <= |obs|
    && (forall i: nat | i < |g.homes| :: HomeOk(obs, g, claimed, domains, i))
    && g.roleAt.Keys == claimed.Keys && |g.domainAt| == |domains|
    && (forall r | r in g.roleAt ::
          g.roleAt[r] < |g.homes| && g.homes[g.roleAt[r]] == InRole(r) && claimed[r] == obs[g.roleAt[r]].0)
    && (forall d: nat | d < |domains| ::
          g.domainAt[d] < |g.homes| && g.homes[g.domainAt[d]] == InDomain(d) && domains[d].1 == obs[g.domainAt[d]].0)
    && (forall d: nat | d < |domains| :: DomainKeyOk(domains[d].0))
    && (forall d: nat, e: nat | d < e < |domains| :: domains[d].0 != domains[e].0)
  }

  /** The default folder of a role with its top-level folder renamed. */
  function Below(role: Role, name: string): Path {
    [name] + DefaultContent(role)[1..]
  }

  function Remap(claimed: map<Role, string>, role: Role): Path {
    hide DefaultContent;
    var top := TopOf(role);
    if top in claimed then Below(role, claimed[top]) else DefaultContent(role)
  }

  /** The top-level role a role lives under. */
  function TopOf(role: Role): (top: Role)
    ensures TopLevel(top)
  {
    match role
    case Contacts => People case Authors => People
    case Health => Administrative case Home => Administrative case Finance => Administrative
    case Travel => Administrative case AdministrativeGeneral => Administrative
    case _ => role
  }

  datatype Suggestion = Suggestion(claimed: map<Role, string>, domains: seq<(string, string)>, content: ContentDirs)

  lemma ClaimedTopLevel(obs: Observed, g: Ledger, claimed: map<Role, string>, domains: seq<(string, string)>)
    requires Assigned(obs, g, claimed, domains)
    ensures forall r | r in claimed :: TopLevel(r)
  {
    hide Classify, TopLevel;
    forall r | r in claimed ensures TopLevel(r) {
      assert HomeOk(obs, g, claimed, domains, g.roleAt[r]);
    }
  }

  lemma EmptyLedger(obs: Observed)
    ensures Assigned(obs, Ledger([], map[], []), map[], [])
  {
  }

  lemma NextSkipped(obs: Observed, g: Ledger, claimed: map<Role, string>, domains: seq<(string, string)>)
    requires Assigned(obs, g, claimed, domains) && |g.homes| < |obs| && Reserved(obs[|g.homes|].0)
    ensures Assigned(obs, g.(homes := g.homes + [Skipped]), claimed, domains)
  {
    hide Classify, Reserved, DomainKeyOk;
    var h := g.(homes := g.homes + [Skipped]);
    forall i: nat | i < |h.homes| ensures HomeOk(obs, h, claimed, domains, i) {
      if i < |g.homes| { assert HomeOk(obs, g, claimed, domains, i); }
    }
  }

  lemma NextClaim(obs: Observed, g: Ledger, claimed: map<Role, string>, domains: seq<(string, string)>, role: Role)
    requires Assigned(obs, g, claimed, domains) && |g.homes| < |obs| && !Reserved(obs[|g.homes|].0)
    requires Classify(obs[|g.homes|].0, obs[|g.homes|].1) == Some(role) && role !in claimed
    ensures Assigned(obs, Ledger(g.homes + [InRole(role)], g.roleAt[role := |g.homes|], g.domainAt),
                     claimed[role := obs[|g.homes|].0], domains)
  {
    hide Classify, Reserved, DomainKeyOk;
    var h := Ledger(g.homes + [InRole(role)], g.roleAt[role := |g.homes|], g.domainAt);
    var c := claimed[role := obs[|g.homes|].0];
    forall i: nat | i < |h.homes| ensures HomeOk(obs, h, c, domains, i) {
      if i < |g.homes| { assert HomeOk(obs, g, claimed, domains, i); }
    }
  }

  lemma NextDomain(obs: Observed, g: Ledger, claimed: map<Role, string>, domains: seq<(string, string)>, slug: string)
    requires Assigned(obs, g, claimed, domains) && |g.homes| < |obs| && !Reserved(obs[|g.homes|].0)
    requires Classify(obs[|g.homes|].0, obs[|g.homes|].1).Some? ==>
               Classify(obs[|g.homes|].0, obs[|g.homes|].1).value in claimed
    requires DomainKeyOk(slug) && forall d | 0 <= d < |domains| :: domains[d].0 != slug
    ensures Assigned(obs, Ledger(g.homes + [InDomain(|domains|)], g.roleAt, g.domainAt + [|g.homes|]),
                     claimed, domains + [(slug, obs[|g.homes|].0)])
  {
    hide Classify, Reserved, DomainKeyOk;
    var h := Ledger(g.homes + [InDomain(|domains|)], g.roleAt, g.domainAt + [|g.homes|]);
    var ds := domains + [(slug, obs[|g.homes|].0)];
    forall i: nat | i < |h.homes| ensures HomeOk(obs, h, claimed, ds, i) {
      if i < |g.homes| { assert HomeOk(obs, g, claimed, domains, i); }
    }
  }

  /** `suggest_layout` from the default paths. */
  method SuggestLayout(obs: Observed) returns (s: Suggestion, ghost g: Ledger)
    requires Scanned(obs)
    ensures |g.homes| == |obs| && Assigned(obs, g, s.claimed, s.domains)
    ensures forall r: Role :: s.content.At(r) == Remap(s.claimed, r)
  {
    hide Classify, Reserved, DomainKeyOk, RoleDomains, Assigned;
    var claimed: map<Role, string> := map[];
    var domains: seq<(string, string)> := [];
    var slugs: set<string> := {};
    g := Ledger([], map[], []);
    assert Assigned(obs, g, claimed, domains) by { EmptyLedger(obs); }
    for n := 0 to |obs|
      invariant |g.homes| == n && Assigned(obs, g, claimed, domains)
      invariant forall d | 0 <= d < |domains| :: domains[d].0 in slugs
    {
      var name := obs[n].0;
      if Reserved(name) {
        NextSkipped(obs, g, claimed, domains);
        g := g.(homes := g.homes + [Skipped]);
      } else {
        var role := Classify(name, obs[n].1);
        if role.Some? && role.value !in claimed {
          NextClaim(obs, g, claimed, domains, role.value);
          claimed := claimed[role.value := name];
          g := Ledger(g.homes + [InRole(role.value)], g.roleAt[role.value := n], g.domainAt);
        } else {
          var slug, _ := UniqueDomainSlug(name, slugs);
          NextDomain(obs, g, claimed, domains, slug);
          g := Ledger(g.homes + [InDomain(|domains|)], g.roleAt, g.domainAt + [n]);
          domains := domains + [(slug, name)];
          slugs := slugs + {slug};
        }
      }
    }
    ClaimedTopLevel(obs, g, claimed, domains);
    var content := RemapAll(claimed);
    s := Suggestion(claimed, domains, content);
  }

  /** The roles that live under a top-level role. */
  function Children(role: Role): seq<Role> {
    match role
    case People => [Contacts, Authors]
    case Administrative => [Health, Home, Finance, Travel, AdministrativeGeneral]
    case _ => []
  }

  lemma ChildrenIff(role: Role, k: Role)
    requires TopLevel(role)
    ensures TopOf(k) == role <==> k == role || k in Children(role)
  {
  }

  /** `_remap_role`: point a top-level role, and the roles beneath it, at an observed folder. */
  method RemapRole(content: ContentDirs, role: Role, name: string) returns (r: ContentDirs)
    requires TopLevel(role)
    ensures forall k: Role :: r.At(k) == if TopOf(k) == role then Below(k, name) else content.At(k)
  {
    TopIsBelow(role, name);
    hide DefaultContent, TopOf, Children, TopLevel, ContentDirs.At, ContentDirs.With, Below;
    r := content.With(role, [name]);
    var children := Children(role);
    for i := 0 to |children|
      invariant forall k: Role :: r.At(k) == if k == role || k in children[..i] then Below(k, name) else content.At(k)
    {
      assert children[..i + 1] == children[..i] + [children[i]];
      r := r.With(children[i], Below(children[i], name));
    }
    assert children[..|children|] == children;
    AllChildren(role);
  }

  lemma AllChildren(role: Role)
    requires TopLevel(role)
    ensures forall k: Role :: TopOf(k) == role <==> k == role || k in Children(role)
  {
    hide TopOf, Children, TopLevel;
    forall k: Role ensures TopOf(k) == role <==> k == role || k in Children(role) { ChildrenIff(role, k); }
  }

  lemma TopIsBelow(role: Role, name: string)
    requires TopLevel(role)
    ensures Below(role, name) == [name]
  {
  }

  method RemapAll(claimed: map<Role, string>) returns (content: ContentDirs)
    requires forall r | r in claimed :: TopLevel(r)
    ensures forall r: Role :: content.At(r) == Remap(claimed, r)
  {
    assert forall k: Role :: DEFAULT_CONTENT.At(k) == DefaultContent(k);
    hide DefaultContent, TopOf, TopLevel, ContentDirs.At;
    content := DEFAULT_CONTENT;
    var todo := claimed.Keys;
    while todo != {}
      invariant todo <= claimed.Keys
      invariant forall k: Role | TopOf(k) in claimed.Keys - todo :: content.At(k) == Remap(claimed, k)
      invariant forall k: Role | TopOf(k) !in claimed.Keys - todo :: content.At(k) == DefaultContent(k)
    {
      var role :| role in todo;
      content := RemapRole(content, role, claimed[role]);
      todo := todo - {role};
    }
  }

  // ---- every suggestion is a layout that validation accepts ----

  function SuggestedConfig(s: Suggestion): Config {
    Config(RawPath(false, SYSTEM_DEFAULT), RawPath(false, INBOX_DEFAULT), RawPath(false, DASHBOARDS_DEFAULT),
           seq(ROLE_COUNT, i requires 0 <= i < ROLE_COUNT => (Known(RoleAt(i)), RawPath(false, s.content.At(RoleAt(i))))),
           seq(|s.domains|, i requires 0 <= i < |s.domains| => (s.domains[i].0, RawPath(false, [s.domains[i].1]))),
           [])
  }

  lemma OccursWitness(s: string, needle: string, i: nat)
    requires i + |needle| <= |s| && s[i..i + |needle|] == needle
    ensures Occurs(s, needle)
  {
    assert OccursAt(s, needle, i);
  }

  /** A keyword with a letter the name lacks does not occur in it. */
  lemma LacksLetter(s: string, needle: string, k: nat)
    requires k < |needle| && needle[k] !in s
    ensures !Occurs(s, needle)
  {
    forall i | 0 <= i <= |s| ensures !OccursAt(s, needle, i) {
      assert 0 <= i && i + |needle| <= |s| ==> s[i..i + |needle|][k] in s;
    }
  }

  function DefaultName(t: Role): string
    requires TopLevel(t)
  {
    DefaultContent(t)[0]
  }

  lemma HintsOwn(s: string, role: Role, k: nat)
    requires k < |Keywords(role)| && 3 + |Keywords(role)[k]| <= |s| && s[3..3 + |Keywords(role)[k]|] == Keywords(role)[k]
    ensures NameHints(s, role)
  {
    OccursWitness(s, Keywords(role)[k], 3);
  }

  /** A name without `p`, `c`, and the listed letters hints at none of the earlier roles. */
  lemma NotPeople(s: string)
    requires 'p' !in s && ('c' !in s || 'a' !in s)
    ensures !NameHints(s, People)
  {
    LacksLetter(s, "people", 0);
    if 'c' !in s { LacksLetter(s, "contacts", 0); } else { LacksLetter(s, "contacts", 4); }
    LacksLetter(s, "person", 0);
    LacksLetter(s, "persons", 0);
  }

  lemma NotOrganizations(s: string)
    requires 'g' !in s || 'r' !in s || 'o' !in s
    requires 'c' !in s || 'm' !in s
    ensures !NameHints(s, Organizations)
  {
    var k := if 'o' !in s then 0 else if 'r' !in s then 1 else 2;
    LacksLetter(s, "organization", k);
    LacksLetter(s, "organizations", k);
    LacksLetter(s, "orgs", k);
    LacksLetter(s, "org", k);
    var j := if 'c' !in s then 0 else 2;
    LacksLetter(s, "companies", j);
    LacksLetter(s, "company", j);
  }

  lemma NotWork(s: string)
    requires 'w' !in s && 'p' !in s
    ensures !NameHints(s, Work)
  {
    LacksLetter(s, "work", 0);
    LacksLetter(s, "projects", 0);
    LacksLetter(s, "project", 0);
  }

  lemma NotAdministrative(s: string)
    requires 'a' !in s
    ensures !NameHints(s, Administrative)
  {
    LacksLetter(s, "admin", 0);
    LacksLetter(s, "administrative", 0);
    LacksLetter(s, "administration", 0);
  }

  lemma NotThoughts(s: string)
    requires 't' !in s && 'n' !in s && 'i' !in s && 'd' !in s
    ensures !NameHints(s, Thoughts)
  {
    LacksLetter(s, "thoughts", 0);
    LacksLetter(s, "notes", 0);
    LacksLetter(s, "journal", 4);
    LacksLetter(s, "ideas", 0);
    LacksLetter(s, "reflections", 6);
    LacksLetter(s, "zettel", 2);
    LacksLetter(s, "fleeting", 4);
    LacksLetter(s, "daily", 0);
  }

  /** The role whose keyword comes first wins. */
  lemma FirstHintWins(name: string, info: Info, t: Role)
    requires TopLevel(t) && NameHints(LowerAscii(name), t)
    requires forall r: Role | TopLevel(r) && TopRank(r) < TopRank(t) :: !NameHints(LowerAscii(name), r)
    ensures Classify(name, info) == Some(t)
  {
    hide NameHints, LowerAscii;
    assert forall r: Role | TopLevel(r) :: TopRank(r) == 0 <==> r == People;
    assert forall r: Role | TopLevel(r) :: TopRank(r) == 1 <==> r == Organizations;
    assert forall r: Role | TopLevel(r) :: TopRank(r) == 2 <==> r == Work;
    assert forall r: Role | TopLevel(r) :: TopRank(r) == 3 <==> r == Administrative;
    assert forall r: Role | TopLevel(r) :: TopRank(r) == 4 <==> r == Thoughts;
  }

  lemma OrganizationsHint()
    ensures var s := LowerAscii("03 Organizations"); NameHints(s, Organizations) && !NameHints(s, People)
  {
    hide NameHints;
    var s := LowerAscii("03 Organizations");
    assert s == "03 organizations";
    assert NameHints(s, Organizations) by {
      assert Keywords(Organizations)[0] == "organization" == s[3..15];
      HintsOwn(s, Organizations, 0);
    }
    hide Keywords;
    assert !NameHints(s, People) by { NotPeople(s); }
  }

  lemma WorkHint()
    ensures var s := LowerAscii("04 Work"); NameHints(s, Work) && !NameHints(s, Organizations) && !NameHints(s, People)
  {
    hide NameHints;
    var s := LowerAscii("04 Work");
    assert s == "04 work";
    assert NameHints(s, Work) by {
      assert Keywords(Work)[0] == "work" == s[3..7];
      HintsOwn(s, Work, 0);
    }
    hide Keywords;
    assert !NameHints(s, People) by { NotPeople(s); }
    assert !NameHints(s, Organizations) by { NotOrganizations(s); }
  }

  lemma AdministrativeHint()
    ensures var s := LowerAscii("05 Administrative");
      NameHints(s, Administrative) && !NameHints(s, Work) && !NameHints(s, Organizations) && !NameHints(s, People)
  {
    hide NameHints;
    var s := LowerAscii("05 Administrative");
    assert s == "05 administrative";
    assert NameHints(s, Administrative) by {
      assert Keywords(Administrative)[0] == "admin" == s[3..8];
      HintsOwn(s, Administrative, 0);
    }
    hide Keywords;
    assert !NameHints(s, People) by { NotPeople(s); }
    assert !NameHints(s, Organizations) by { NotOrganizations(s); }
    assert !NameHints(s, Work) by { NotWork(s); }
  }

  lemma ThoughtsHint()
    ensures var s := LowerAscii("06 Thoughts");
      NameHints(s, Thoughts) && !NameHints(s, Administrative) && !NameHints(s, Work)
      && !NameHints(s, Organizations) && !NameHints(s, People)
  {
    hide NameHints;
    var s := LowerAscii("06 Thoughts");
    assert s == "06 thoughts";
    assert NameHints(s, Thoughts) by {
      assert Keywords(Thoughts)[0] == "thoughts" == s[3..11];
      HintsOwn(s, Thoughts, 0);
    }
    hide Keywords;
    assert !NameHints(s, People) by { NotPeople(s); }
    assert !NameHints(s, Organizations) by { NotOrganizations(s); }
    assert !NameHints(s, Work) by { NotWork(s); }
    assert !NameHints(s, Administrative) by { NotAdministrative(s); }
  }

  lemma SourcesHint()
    ensures var s := LowerAscii("07 Sources");
      NameHints(s, Sources) && !NameHints(s, Thoughts) && !NameHints(s, Administrative) && !NameHints(s, Work)
      && !NameHints(s, Organizations) && !NameHints(s, People)
  {
    hide NameHints;
    var s := LowerAscii("07 Sources");
    assert s == "07 sources";
    assert NameHints(s, Sources) by {
      assert Keywords(Sources)[0] == "sources" == s[3..10];
      HintsOwn(s, Sources, 0);
    }
    hide Keywords;
    assert !NameHints(s, People) by { NotPeople(s); }
    assert !NameHints(s, Organizations) by { NotOrganizations(s); }
    assert !NameHints(s, Work) by { NotWork(s); }
    assert !NameHints(s, Administrative) by { NotAdministrative(s); }
    assert !NameHints(s, Thoughts) by { NotThoughts(s); }
  }

  /** A default folder is always classified as its own role, whatever notes it holds. */
  lemma DefaultClassifies(t: Role, info: Info)
    requires TopLevel(t)
    ensures Classify(DefaultName(t), info) == Some(t)
  {
    match t
    case People =>
      assert LowerAscii("02 People") == "02 people";
      HintsOwn("02 people", People, 0);
    case Organizations => OrganizationsHint();
    case Work => WorkHint();
    case Administrative => AdministrativeHint();
    case Thoughts => ThoughtsHint();
    case Sources => SourcesHint();
    hide Classify, NameHints, Keywords, LowerAscii;
    FirstHintWins(DefaultName(t), info, t);
  }

  // ---- acceptance ----

  /** The first segment of every folder the suggestion gives to a role below `t`. */
  function Head(claimed: map<Role, string>, t: Role): string
    requires TopLevel(t)
  {
    if t in claimed then claimed[t] else DefaultName(t)
  }

  lemma RemapHead(claimed: map<Role, string>, r: Role)
    ensures Remap(claimed, r) != [] && Remap(claimed, r)[0] == Head(claimed, TopOf(r))
    ensures Under(Remap(claimed, r), Remap(claimed, TopOf(r)))
  {
  }

  lemma HeadsApart(p: Path, q: Path)
    requires p != [] && q != [] && p[0] != q[0]
    ensures Apart(p, q)
  {
  }

  lemma DefaultNotReserved(t: Role)
    requires TopLevel(t)
    ensures !Reserved(DefaultName(t))
  {
  }

  lemma HeadNotReserved(obs: Observed, g: Ledger, s: Suggestion, t: Role)
    requires Assigned(obs, g, s.claimed, s.domains) && TopLevel(t)
    ensures !Reserved(Head(s.claimed, t))
  {
    hide Reserved, Classify, DefaultName;
    if t in s.claimed {
      assert HomeOk(obs, g, s.claimed, s.domains, g.roleAt[t]);
    } else {
      DefaultNotReserved(t);
    }
  }

  /** No observed folder other than the one claimed for `t` is the head folder of `t`. */
  lemma HeadIsOwn(obs: Observed, g: Ledger, s: Suggestion, t: Role, i: nat)
    requires Scanned(obs) && |g.homes| == |obs| && Assigned(obs, g, s.claimed, s.domains)
    requires TopLevel(t) && i < |obs| && !Reserved(obs[i].0) && g.homes[i] != InRole(t)
    ensures obs[i].0 != Head(s.claimed, t)
  {
    hide Reserved, Classify, DefaultName;
    assert HomeOk(obs, g, s.claimed, s.domains, i);
    if t in s.claimed {
      var k := g.roleAt[t];
      assert g.homes[k] == InRole(t);
      assert k != i;
    } else if obs[i].0 == DefaultName(t) {
      DefaultClassifies(t, obs[i].1);
      assert false;
    }
  }

  lemma HeadsDiffer(obs: Observed, g: Ledger, s: Suggestion, t: Role, u: Role)
    requires Scanned(obs) && |g.homes| == |obs| && Assigned(obs, g, s.claimed, s.domains)
    requires TopLevel(t) && TopLevel(u) && t != u
    ensures Head(s.claimed, t) != Head(s.claimed, u)
  {
    hide Reserved, Classify;
    if t in s.claimed {
      assert HomeOk(obs, g, s.claimed, s.domains, g.roleAt[t]);
      HeadIsOwn(obs, g, s, u, g.roleAt[t]);
    } else if u in s.claimed {
      assert HomeOk(obs, g, s.claimed, s.domains, g.roleAt[u]);
      HeadIsOwn(obs, g, s, t, g.roleAt[u]);
    } else {
      DefaultClassifies(t, Info(0, "", 0, ""));
      DefaultClassifies(u, Info(0, "", 0, ""));
    }
  }

  lemma {:induction false} ConfiguredAll(content: seq<(ContentKey, RawPath)>, dirs: ContentDirs, n: nat)
    requires n == |content| <= ROLE_COUNT
    requires forall i: nat | i < n :: content[i] == (Known(RoleAt(i)), RawPath(false, dirs.At(RoleAt(i))))
    ensures forall r: Role | RoleIndex(r) < n :: Configured(content).At(r) == dirs.At(r)
  {
    hide RoleIndex, RoleAt, ContentDirs.At, ContentDirs.With;
    if n > 0 {
      var rest := content[..n - 1];
      ConfiguredAll(rest, dirs, n - 1);
      forall r: Role | RoleIndex(r) < n ensures Configured(content).At(r) == dirs.At(r) {
        if RoleIndex(r) == n - 1 { RoleIndexInjective(r, RoleAt(n - 1)); }
      }
    }
  }

  lemma SuggestedContentOk(obs: Observed, g: Ledger, s: Suggestion, l: Layout)
    requires Scanned(obs) && |g.homes| == |obs| && Assigned(obs, g, s.claimed, s.domains)
    requires l.system == SYSTEM_DEFAULT && l.inbox == INBOX_DEFAULT && l.dashboards == DASHBOARDS_DEFAULT
    requires forall r: Role :: l.content.At(r) == Remap(s.claimed, r)
    ensures ContentOk(l)
  {
    hide ContentDirs.At, Remap, Assigned, Head, Apart, DefaultName;
    forall r: Role ensures ApartFromReserved(l.content.At(r), l) {
      RemapHead(s.claimed, r);
      HeadNotReserved(obs, g, s, TopOf(r));
      HeadsApart(l.content.At(r), l.system);
      HeadsApart(l.content.At(r), l.inbox);
      HeadsApart(l.content.At(r), l.dashboards);
    }
    forall t, u: Role | TopLevel(t) && TopLevel(u) && t != u ensures Apart(l.content.At(t), l.content.At(u)) {
      RemapHead(s.claimed, t);
      RemapHead(s.claimed, u);
      HeadsDiffer(obs, g, s, t, u);
      HeadsApart(l.content.At(t), l.content.At(u));
    }
    RemapHead(s.claimed, Contacts);
    RemapHead(s.claimed, Authors);
    forall r: Role | Administrational(r) ensures Under(l.content.At(r), l.content.At(Administrative)) {
      RemapHead(s.claimed, r);
    }
  }

  lemma SuggestedDomainsOk(obs: Observed, g: Ledger, s: Suggestion, l: Layout)
    requires Scanned(obs) && |g.homes| == |obs| && Assigned(obs, g, s.claimed, s.domains)
    requires l.system == SYSTEM_DEFAULT && l.inbox == INBOX_DEFAULT && l.dashboards == DASHBOARDS_DEFAULT
    requires forall r: Role :: l.content.At(r) == Remap(s.claimed, r)
    requires |l.domains| == |s.domains| && forall d: nat | d < |s.domains| :: l.domains[d] == (s.domains[d].0, [s.domains[d].1])
    ensures DomainsOk(l)
  {
    hide ContentDirs.At, Remap, Head, Apart, DefaultName, Classify, DomainKeyOk;
    forall d: nat | d < |l.domains| ensures DomainOk(l, d) {
      var i := g.domainAt[d];
      assert HomeOk(obs, g, s.claimed, s.domains, i);
      HeadsApart(l.domains[d].1, l.system);
      HeadsApart(l.domains[d].1, l.inbox);
      HeadsApart(l.domains[d].1, l.dashboards);
      forall r: Role ensures Apart(l.domains[d].1, l.content.At(r)) {
        RemapHead(s.claimed, r);
        HeadIsOwn(obs, g, s, TopOf(r), i);
        HeadsApart(l.domains[d].1, l.content.At(r));
      }
    }
    forall d: nat, e: nat | d < e < |l.domains| ensures Apart(l.domains[d].1, l.domains[e].1) {
      assert g.domainAt[d] != g.domainAt[e];
      HeadsApart(l.domains[d].1, l.domains[e].1);
    }
  }

  lemma ObservedPathOk(obs: Observed, i: nat)
    requires Scanned(obs) && i < |obs| && !Reserved(obs[i].0)
    ensures PathOk(RawPath(false, [obs[i].0]))
  {
  }

  lemma DefaultPathOk(r: Role)
    ensures PathOk(RawPath(false, DefaultContent(r))) && ".." !in DefaultContent(r)[1..]
  {
  }

  lemma RemapPathOk(obs: Observed, g: Ledger, s: Suggestion, r: Role)
    requires Scanned(obs) && |g.homes| == |obs| && Assigned(obs, g, s.claimed, s.domains)
    ensures PathOk(RawPath(false, Remap(s.claimed, r)))
  {
    DefaultPathOk(r);
    if TopOf(r) in s.claimed {
      var i := g.roleAt[TopOf(r)];
      assert HomeOk(obs, g, s.claimed, s.domains, i) && s.claimed[TopOf(r)] == obs[i].0;
      ObservedPathOk(obs, i);
      hide DefaultContent, Reserved, Classify, TopOf;
      assert Remap(s.claimed, r) == [obs[i].0] + DefaultContent(r)[1..];
    }
  }

  lemma DomainHome(obs: Observed, g: Ledger, s: Suggestion, d: nat)
    requires Assigned(obs, g, s.claimed, s.domains) && d < |s.domains|
    ensures !Reserved(obs[g.domainAt[d]].0)
  {
    hide Reserved, Classify;
    assert HomeOk(obs, g, s.claimed, s.domains, g.domainAt[d]);
  }

  lemma RootsAccepted()
    ensures PathOk(RawPath(false, SYSTEM_DEFAULT)) && PathOk(RawPath(false, INBOX_DEFAULT))
    ensures PathOk(RawPath(false, DASHBOARDS_DEFAULT))
    ensures RootsOk(SYSTEM_DEFAULT, INBOX_DEFAULT, DASHBOARDS_DEFAULT)
  {
  }

  /** Whatever folders the vault has, `build_paths` accepts the suggested layout. */
  lemma SuggestionAccepted(obs: Observed, g: Ledger, s: Suggestion)
    requires Scanned(obs) && |g.homes| == |obs| && Assigned(obs, g, s.claimed, s.domains)
    requires forall r: Role :: s.content.At(r) == Remap(s.claimed, r)
    ensures Acceptable(SuggestedConfig(s))
  {
    var c := SuggestedConfig(s);
    var l := AsLayout(c);
    ConfiguredAll(c.content, s.content, ROLE_COUNT);
    hide ContentDirs.At, Remap, Head, Apart, Configured, PathOk, RoleAt, ContentOk, DomainsOk, HomeOk, Reserved, Classify, DomainKeyOk;
    assert forall r: Role :: RoleIndex(r) < ROLE_COUNT;
    RootsAccepted();
    forall i: nat | i < |c.content| ensures PathOk(c.content[i].1) { RemapPathOk(obs, g, s, RoleAt(i)); }
    forall d: nat | d < |c.domains| ensures PathOk(c.domains[d].1) {
      assert !Reserved(obs[g.domainAt[d]].0) by { DomainHome(obs, g, s, d); }
      ObservedPathOk(obs, g.domainAt[d]);
    }
    SuggestedContentOk(obs, g, s, l);
    SuggestedDomainsOk(obs, g, s, l);
  }
}
