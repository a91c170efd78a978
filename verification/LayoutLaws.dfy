/** What a suggested layout and an accepted one mean, in terms of folder names and of the files under them. */
module LayoutLaws {
  import opened Text
  import opened VaultPaths
  import opened VaultLayout
  import opened LayoutSuggestion

  // ---- which role a folder is taken for ----

  predicate Within(s: string, word: string) {
    exists i | 0 <= i <= |s| :: word <= s[i..]
  }

  /** One of the words is in the lower-case name. */
  ghost predicate Names(name: string, words: set<string>) {
    exists w | w in words :: Within(LowerAscii(name), w)
  }

  /** The words that decide, without those that contain another one of the same role. */
  function Hints(t: Role): set<string>
    requires TopLevel(t)
  {
    match t
    case People => {"people", "contacts", "person"}
    case Organizations => {"org", "companies", "company"}
    case Work => {"work", "project"}
    case Administrative => {"admin"}
    case Thoughts => {"thoughts", "notes", "journal", "ideas", "reflections", "zettel", "fleeting", "daily"}
    case Sources => {"source", "reading", "reference", "library", "books", "literature", "clippings"}
  }

  /** The roles are tried in this order. */
  ghost predicate Before(r: Role, t: Role)
    requires TopLevel(r) && TopLevel(t)
  {
    match t
    case People => false
    case Organizations => r == People
    case Work => r in {People, Organizations}
    case Administrative => r in {People, Organizations, Work}
    case Thoughts => r !in {Thoughts, Sources}
    case Sources => r != Sources
  }

  /** What a folder without a telling name is taken for, when half of its notes share a type. */
  predicate TypeSays(info: Info, t: Role) {
    || (info.topType == "person" && t == People)
    || (info.topType == "organization" && t == Organizations)
    || (info.topType == "source" && t == Sources)
    || (info.topType == "project" && t == if info.topDomain == "work" then Work else Thoughts)
  }

  lemma WithinIff(s: string, word: string)
    ensures Within(s, word) <==> Occurs(s, word)
  {
    forall i | 0 <= i <= |s| ensures word <= s[i..] <==> OccursAt(s, word, i) {
      if i + |word| <= |s| { assert s[i..][..|word|] == s[i..i + |word|]; }
    }
  }

  /** A word inside a word. */
  lemma OccursWithin(s: string, long: string, k: nat, short: string)
    requires Occurs(s, long) && k + |short| <= |long| && long[k..k + |short|] == short
    ensures Occurs(s, short)
  {
    var i :| 0 <= i <= |s| && OccursAt(s, long, i);
    forall j | 0 <= j < |short| ensures s[i + k + j] == short[j] {
      assert s[i + k + j] == s[i..i + |long|][k + j] == long[k..k + |short|][j];
    }
    assert s[i + k..i + k + |short|] == short;
    assert OccursAt(s, short, i + k);
  }

  /** Each keyword has a deciding word in it. */
  lemma KeywordHints(t: Role, j: nat) returns (k: nat, w: string)
    requires TopLevel(t) && j < |Keywords(t)|
    ensures w in Hints(t) && k + |w| <= |Keywords(t)[j]| && Keywords(t)[j][k..k + |w|] == w
  {
    k := 0;
    w := Keywords(t)[j];
    match t
    case People => if j == 3 { w := "person"; }
    case Organizations => if j < 4 { w := "org"; }
    case Work => if j == 1 { w := "project"; }
    case Administrative => w := "admin";
    case Thoughts =>
    case Sources =>
      if j == 0 { w := "source"; }
      if j == 3 { w := "reference"; }
  }

  lemma HintKeyword(t: Role, w: string) returns (j: nat)
    requires TopLevel(t) && w in Hints(t)
    ensures j < |Keywords(t)| && Keywords(t)[j] == w
  {
    match t
    case People => j := if w == "people" then 0 else if w == "contacts" then 1 else 2;
    case Organizations => j := if w == "org" then 3 else if w == "companies" then 4 else 5;
    case Work => j := if w == "work" then 0 else 2;
    case Administrative => j := 0;
    case Thoughts =>
      j := if w == "thoughts" then 0 else if w == "notes" then 1 else if w == "journal" then 2 else if w == "ideas" then 3
        else if w == "reflections" then 4 else if w == "zettel" then 5 else if w == "fleeting" then 6 else 7;
    case Sources =>
      j := if w == "source" then 1 else if w == "reading" then 2 else if w == "reference" then 4
        else if w == "library" then 5 else if w == "books" then 6 else if w == "literature" then 7 else 8;
  }

  lemma HintedIff(name: string, t: Role)
    requires TopLevel(t)
    ensures NameHints(LowerAscii(name), t) <==> Names(name, Hints(t))
  {
    hide Keywords, Hints, Occurs, LowerAscii, TopLevel;
    var s := LowerAscii(name);
    if NameHints(s, t) {
      var j :| 0 <= j < |Keywords(t)| && Occurs(s, Keywords(t)[j]);
      var k, w := KeywordHints(t, j);
      OccursWithin(s, Keywords(t)[j], k, w);
      WithinIff(s, w);
    }
    if Names(name, Hints(t)) {
      var w :| w in Hints(t) && Within(s, w);
      WithinIff(s, w);
      var j := HintKeyword(t, w);
      assert Occurs(s, Keywords(t)[j]);
    }
  }

  /** A folder is taken for a role if and only if its name says so and says nothing earlier, or its name
      says nothing at all and at least half of its notes do. */
  lemma ClassifiedIff(name: string, info: Info, t: Role)
    ensures Classify(name, info) == Some(t) <==>
      && TopLevel(t)
      && (forall r: Role | TopLevel(r) && Before(r, t) :: !Names(name, Hints(r)))
      && (|| Names(name, Hints(t))
          || (&& (forall r: Role | TopLevel(r) :: !Names(name, Hints(r)))
              && info.topType != "" && 2 * info.typeCount >= info.count && TypeSays(info, t)))
  {
    forall r: Role | TopLevel(r) ensures NameHints(LowerAscii(name), r) <==> Names(name, Hints(r)) { HintedIff(name, r); }
    hide Names, Hints, NameHints, LowerAscii, Classify, Before, TypeSays;
    if r: Role :| First(name, r) {
      FirstNamed(name, info, r);
      if First(name, t) { FirstNamed(name, info, t); }
    } else {
      NoneNamed(name, info);
      TypeDecides(name, info, t);
    }
  }

  lemma TypeDecides(name: string, info: Info, t: Role)
    requires forall r: Role | TopLevel(r) :: !NameHints(LowerAscii(name), r)
    ensures Classify(name, info) == Some(t) <==>
      TopLevel(t) && info.topType != "" && 2 * info.typeCount >= info.count && TypeSays(info, t)
  {
    hide NameHints, LowerAscii;
    var s := LowerAscii(name);
    assert !NameHints(s, People) && !NameHints(s, Organizations) && !NameHints(s, Work) && !NameHints(s, Administrative)
        && !NameHints(s, Thoughts) && !NameHints(s, Sources);
  }

  ghost predicate First(name: string, t: Role) {
    && TopLevel(t) && NameHints(LowerAscii(name), t)
    && forall r: Role | TopLevel(r) && Before(r, t) :: !NameHints(LowerAscii(name), r)
  }

  lemma FirstNamed(name: string, info: Info, t: Role)
    requires First(name, t)
    ensures Classify(name, info) == Some(t)
  {
    hide NameHints, LowerAscii;
    FirstHintWins(name, info, t);
  }

  lemma NoneNamed(name: string, info: Info)
    requires forall r: Role :: !First(name, r)
    ensures forall r: Role | TopLevel(r) :: !NameHints(LowerAscii(name), r)
  {
    hide NameHints, LowerAscii;
    var s := LowerAscii(name);
    assert !First(name, People) && !First(name, Organizations) && !First(name, Work) && !First(name, Administrative)
        && !First(name, Thoughts) && !First(name, Sources);
    assert !NameHints(s, People);
    assert !NameHints(s, Organizations);
    assert !NameHints(s, Work);
    assert !NameHints(s, Administrative);
    assert !NameHints(s, Thoughts);
    assert !NameHints(s, Sources);
  }

  // ---- the key of a domain folder ----

  /** The maximal runs of lower-case letters and digits. */
  function Words(s: string): (r: seq<string>)
    ensures s != "" && SlugChar(s[0]) ==> r != []
    ensures forall i | 0 <= i < |r| :: r[i] != "" && forall j | 0 <= j < |r[i]| :: SlugChar(r[i][j])
  {
    if s == "" then []
    else if !SlugChar(s[0]) then Words(s[1..])
    else if |s| > 1 && SlugChar(s[1]) then [[s[0]] + Words(s[1..])[0]] + Words(s[1..])[1..]
    else [[s[0]]] + Words(s[1..])
  }

  function Underscored(words: seq<string>): string {
    JoinWith(words, "_")
  }

  /** An underscore where the words do not reach the end of the text. */
  function Edge(s: string, at: int): string {
    if 0 <= at < |s| && !SlugChar(s[at]) then "_" else ""
  }

  lemma {:induction false} UnderscoredShape(words: seq<string>)
    requires words != [] && forall i | 0 <= i < |words| :: words[i] != "" && forall j | 0 <= j < |words[i]| :: SlugChar(words[i][j])
    ensures var u := Underscored(words); u != "" && SlugChar(u[0]) && SlugChar(u[|u| - 1])
  {
    if |words| > 1 { UnderscoredShape(words[1..]); }
  }

  lemma {:induction false} CollapseIs(s: string)
    ensures Words(s) == [] ==> Collapse(s) == if s == "" then "" else "_"
    ensures Words(s) != [] ==> Collapse(s) == Edge(s, 0) + (Underscored(Words(s)) + Edge(s, |s| - 1))
  {
    if s == "" {
    } else if |s| == 1 {
      assert s[1..] == "" && Words("") == [];
    } else {
      var t := s[1..];
      CollapseIs(t);
      assert t[0] == s[1] && t[|t| - 1] == s[|s| - 1];
      if SlugChar(s[0]) {
        JoinStep(s[0], t);
      }
    }
  }

  /** Putting one more letter in front. */
  lemma JoinStep(c: char, t: string)
    requires SlugChar(c) && t != ""
    requires Words(t) == [] ==> Collapse(t) == "_"
    requires Words(t) != [] ==> Collapse(t) == Edge(t, 0) + (Underscored(Words(t)) + Edge(t, |t| - 1))
    ensures Words([c] + t) != []
    ensures [c] + Collapse(t) == Underscored(Words([c] + t)) + Edge([c] + t, |t|)
  {
    var w, e := Words(t), Edge(t, |t| - 1);
    WordsStep(c, t);
    if SlugChar(t[0]) {
      FirstLonger(c, w);
      hide *;
      Regroup([c], "", Underscored(w), e);
    } else if w == [] {
      NoWords(t);
      hide Words, Collapse;
      assert Underscored([[c]]) == [c] && [[c]] + w == [[c]];
    } else {
      FirstShort(c, w);
      hide *;
      Regroup([c], "_", Underscored(w), e);
    }
  }

  lemma Regroup(a: string, b: string, c: string, d: string)
    ensures a + (b + (c + d)) == a + (b + c) + d && (b == "" ==> b + c == c)
  {
  }

  lemma WordsStep(c: char, t: string)
    requires SlugChar(c) && t != ""
    ensures Words([c] + t) == if SlugChar(t[0]) then [[c] + Words(t)[0]] + Words(t)[1..] else [[c]] + Words(t)
    ensures Edge([c] + t, |t|) == Edge(t, |t| - 1) && Edge(t, 0) == if SlugChar(t[0]) then "" else "_"
  {
    var s := [c] + t;
    assert s[1..] == t && s[1] == t[0] && s[|t|] == t[|t| - 1];
  }

  lemma FirstLonger(c: char, w: seq<string>)
    requires w != []
    ensures Underscored([[c] + w[0]] + w[1..]) == [c] + Underscored(w)
  {
    assert ([[c] + w[0]] + w[1..])[1..] == w[1..];
  }

  lemma FirstShort(c: char, w: seq<string>)
    requires w != []
    ensures Underscored([[c]] + w) == [c] + ("_" + Underscored(w))
  {
    assert ([[c]] + w)[1..] == w;
  }

  lemma {:induction false} NoWords(t: string)
    requires Words(t) == []
    ensures forall i | 0 <= i < |t| :: !SlugChar(t[i])
  {
    if t != "" { NoWords(t[1..]); }
  }

  lemma StripEdges(lead: string, core: string, trail: string)
    requires lead in {"", "_"} && trail in {"", "_"} && core != "" && core[0] != '_' && core[|core| - 1] != '_'
    ensures StripUnderscores(lead + (core + trail)) == core
  {
    assert StripUnderscores(core) == core;
    var inner := core + trail;
    assert StripUnderscores(inner) == core by {
      if trail == "_" { assert inner[..|inner| - 1] == core; } else { assert inner == core; }
    }
    if lead == "_" { assert (lead + inner)[1..] == inner; } else { assert lead + inner == inner; }
  }

  /** The key of a folder: the words of its lower-case name with underscores between them. */
  lemma DomainSlugIs(name: string)
    ensures DomainSlug(name) ==
      if Words(LowerAscii(name)) == [] then "domain" else Underscored(Words(LowerAscii(name)))
  {
    var s := LowerAscii(name);
    CollapseIs(s);
    if Words(s) == [] {
      assert StripUnderscores("") == "" && "_"[1..] == "" && StripUnderscores("_") == "";
    } else {
      UnderscoredShape(Words(s));
      StripEdges(Edge(s, 0), Underscored(Words(s)), Edge(s, |s| - 1));
    }
  }

  // ---- what is suggested ----

  /** Folders the suggestion passes over. */
  predicate Untouched(name: string) {
    name in {"99 System", "00 Inbox", "01 Dashboards", ".pi-vault"}
  }

  /** The i-th folder is the first one taken for its role. */
  ghost predicate Claims(obs: Observed, i: nat, t: Role)
    requires i < |obs|
  {
    && !Untouched(obs[i].0) && Classify(obs[i].0, obs[i].1) == Some(t)
    && forall j | 0 <= j < i :: Untouched(obs[j].0) || Classify(obs[j].0, obs[j].1) != Some(t)
  }

  lemma ReservedIs(name: string)
    ensures Reserved(name) <==> Untouched(name)
  {
  }

  lemma RoleHomes(obs: Observed, g: Ledger, s: Suggestion, i: nat, t: Role)
    requires |g.homes| == |obs| && Assigned(obs, g, s.claimed, s.domains) && i < |obs|
    ensures Claims(obs, i, t) <==> g.homes[i] == InRole(t)
  {
    ReservedIs(obs[i].0);
    hide Reserved, Untouched, Classify;
    assert HomeOk(obs, g, s.claimed, s.domains, i);
    if Claims(obs, i, t) && g.homes[i].InDomain? {
      var j := g.roleAt[t];
      assert HomeOk(obs, g, s.claimed, s.domains, j);
      ReservedIs(obs[j].0);
    }
    if g.homes[i] == InRole(t) {
      forall j | 0 <= j < i ensures Untouched(obs[j].0) || Classify(obs[j].0, obs[j].1) != Some(t) {
        assert HomeOk(obs, g, s.claimed, s.domains, j);
        ReservedIs(obs[j].0);
      }
    }
  }

  /** A folder that is neither passed over nor the first of its role. */
  ghost predicate LeftOver(obs: Observed, i: nat)
    requires i < |obs|
  {
    !Untouched(obs[i].0) && forall t: Role :: !Claims(obs, i, t)
  }

  ghost predicate IsLeftOver(obs: Observed, name: string) {
    exists i: nat :: i < |obs| && LeftOver(obs, i) && obs[i].0 == name
  }

  /** A role is claimed by the first folder taken for it; every other folder that is not passed over
      becomes a domain, and no two domains have the same key. */
  lemma SuggestionExactly(obs: Observed, g: Ledger, s: Suggestion)
    requires Scanned(obs) && |g.homes| == |obs| && Assigned(obs, g, s.claimed, s.domains)
    ensures forall t: Role :: t in s.claimed <==> exists i: nat :: i < |obs| && Claims(obs, i, t)
    ensures forall i: nat, t: Role | i < |obs| && Claims(obs, i, t) :: t in s.claimed && s.claimed[t] == obs[i].0
    ensures forall d: nat | d < |s.domains| :: IsLeftOver(obs, s.domains[d].1)
    ensures forall i: nat | i < |obs| && LeftOver(obs, i) :: exists d :: 0 <= d < |s.domains| && s.domains[d].1 == obs[i].0
    ensures forall d: nat, e: nat | d < e < |s.domains| :: s.domains[d].0 != s.domains[e].0 && s.domains[d].1 != s.domains[e].1
  {
    hide Claims, LeftOver, IsLeftOver, Classify, Reserved, DomainKeyOk;
    forall i: nat | i < |obs| ensures HomeSays(obs, g, i) { HomeIs(obs, g, s, i); }
    RolesSay(obs, g, s);
    DomainsSay(obs, g, s);
  }

  /** A folder's home, read off the folders alone. */
  ghost predicate HomeSays(obs: Observed, g: Ledger, i: nat)
    requires i < |obs| == |g.homes|
  {
    (forall t: Role :: Claims(obs, i, t) <==> g.homes[i] == InRole(t)) && (LeftOver(obs, i) <==> g.homes[i].InDomain?)
  }

  lemma HomeIs(obs: Observed, g: Ledger, s: Suggestion, i: nat)
    requires |g.homes| == |obs| && Assigned(obs, g, s.claimed, s.domains) && i < |obs|
    ensures HomeSays(obs, g, i)
  {
    forall t: Role ensures Claims(obs, i, t) <==> g.homes[i] == InRole(t) { RoleHomes(obs, g, s, i, t); }
    ReservedIs(obs[i].0);
    hide Untouched, Reserved, Classify, Claims;
    assert HomeOk(obs, g, s.claimed, s.domains, i);
    if g.homes[i].InRole? { assert Claims(obs, i, g.homes[i].role); }
  }

  lemma RolesSay(obs: Observed, g: Ledger, s: Suggestion)
    requires |g.homes| == |obs| && Assigned(obs, g, s.claimed, s.domains) && forall i: nat | i < |obs| :: HomeSays(obs, g, i)
    ensures forall t: Role :: t in s.claimed <==> exists i: nat :: i < |obs| && Claims(obs, i, t)
    ensures forall i: nat, t: Role | i < |obs| && Claims(obs, i, t) :: t in s.claimed && s.claimed[t] == obs[i].0
  {
    hide Reserved, Classify, Claims, LeftOver, DomainKeyOk;
    forall i: nat, t: Role | i < |obs| && Claims(obs, i, t) ensures t in s.claimed && s.claimed[t] == obs[i].0 {
      assert HomeSays(obs, g, i) && HomeOk(obs, g, s.claimed, s.domains, i);
    }
    forall t: Role | t in s.claimed ensures exists i: nat :: i < |obs| && Claims(obs, i, t) {
      assert HomeSays(obs, g, g.roleAt[t]) && Claims(obs, g.roleAt[t], t);
    }
  }

  lemma DomainsSay(obs: Observed, g: Ledger, s: Suggestion)
    requires Scanned(obs) && |g.homes| == |obs| && Assigned(obs, g, s.claimed, s.domains)
    requires forall i: nat | i < |obs| :: HomeSays(obs, g, i)
    ensures forall d: nat | d < |s.domains| :: IsLeftOver(obs, s.domains[d].1)
    ensures forall i: nat | i < |obs| && LeftOver(obs, i) :: exists d :: 0 <= d < |s.domains| && s.domains[d].1 == obs[i].0
    ensures forall d: nat, e: nat | d < e < |s.domains| :: s.domains[d].0 != s.domains[e].0 && s.domains[d].1 != s.domains[e].1
  {
    hide Reserved, Classify, Claims, LeftOver, DomainKeyOk;
    forall d: nat | d < |s.domains| ensures IsLeftOver(obs, s.domains[d].1) {
      assert HomeSays(obs, g, g.domainAt[d]);
      assert LeftOver(obs, g.domainAt[d]) && s.domains[d].1 == obs[g.domainAt[d]].0;
    }
    forall i: nat | i < |obs| && LeftOver(obs, i) ensures exists d :: 0 <= d < |s.domains| && s.domains[d].1 == obs[i].0 {
      assert HomeSays(obs, g, i) && HomeOk(obs, g, s.claimed, s.domains, i);
      assert s.domains[g.homes[i].d].1 == obs[i].0;
    }
    forall d: nat, e: nat | d < e < |s.domains| ensures s.domains[d].0 != s.domains[e].0 && s.domains[d].1 != s.domains[e].1 {
      DomainsApart(obs, g, s, d, e);
    }
  }

  lemma DomainsApart(obs: Observed, g: Ledger, s: Suggestion, d: nat, e: nat)
    requires Scanned(obs) && |g.homes| == |obs| && Assigned(obs, g, s.claimed, s.domains) && d < e < |s.domains|
    ensures s.domains[d].0 != s.domains[e].0 && s.domains[d].1 != s.domains[e].1
  {
    hide HomeOk, DomainKeyOk;
    assert g.homes[g.domainAt[d]] == InDomain(d) && g.homes[g.domainAt[e]] == InDomain(e);
    assert g.domainAt[d] < g.domainAt[e] || g.domainAt[e] < g.domainAt[d];
  }

  /** Where a claimed role puts its folder and those beneath it. */
  lemma ContentSays(s: Suggestion)
    requires forall r: Role :: s.content.At(r) == Remap(s.claimed, r)
    ensures var people := if People in s.claimed then s.claimed[People] else "02 People";
      && s.content.people == [people] && s.content.contacts == [people, "02.01 Contacts"]
      && s.content.authors == [people, "02.02 Authors"]
    ensures var admin := if Administrative in s.claimed then s.claimed[Administrative] else "05 Administrative";
      && s.content.administrative == [admin] && s.content.health == [admin, "05.01 Health"]
      && s.content.home == [admin, "05.02 Home"] && s.content.finance == [admin, "05.03 Finance"]
      && s.content.travel == [admin, "05.04 Travel"] && s.content.administrativeGeneral == [admin, "05.05 General"]
    ensures s.content.organizations == [if Organizations in s.claimed then s.claimed[Organizations] else "03 Organizations"]
    ensures s.content.work == [if Work in s.claimed then s.claimed[Work] else "04 Work"]
    ensures s.content.thoughts == [if Thoughts in s.claimed then s.claimed[Thoughts] else "06 Thoughts"]
    ensures s.content.sources == [if Sources in s.claimed then s.claimed[Sources] else "07 Sources"]
  {
    var c := s.content;
    assert c.At(People) == c.people && c.At(Contacts) == c.contacts && c.At(Authors) == c.authors;
    assert c.At(Administrative) == c.administrative && c.At(Health) == c.health && c.At(Home) == c.home;
    assert c.At(Finance) == c.finance && c.At(Travel) == c.travel && c.At(AdministrativeGeneral) == c.administrativeGeneral;
    assert c.At(Organizations) == c.organizations && c.At(Work) == c.work;
    assert c.At(Thoughts) == c.thoughts && c.At(Sources) == c.sources;
  }

  // ---- what an accepted layout guarantees ----

  predicate In(file: Path, folder: Path) {
    folder <= file
  }

  /** No file is in both folders. */
  ghost predicate NoneShared(a: Path, b: Path) {
    forall file: Path :: !(In(file, a) && In(file, b))
  }

  ghost predicate NoneSharedAmong(folders: seq<Path>) {
    forall i, j | 0 <= i < j < |folders| :: NoneShared(folders[i], folders[j])
  }

  lemma PrefixesNest(a: Path, b: Path, file: Path)
    ensures a <= file && b <= file ==> a <= b || b <= a
  {
    if a <= file && b <= file { assert a == file[..|a|] && b == file[..|b|]; }
  }

  lemma ApartIff(a: Path, b: Path)
    ensures Apart(a, b) <==> NoneShared(a, b)
  {
    if Apart(a, b) {
      forall file: Path ensures !(In(file, a) && In(file, b)) { PrefixesNest(a, b, file); }
    }
    if NoneShared(a, b) {
      assert !(In(a, a) && In(a, b)) && !(In(b, a) && In(b, b));
    }
  }

  function Tops(l: Layout): (tops: seq<Path>)
    ensures |tops| == 9
  {
    [l.system, l.inbox, l.dashboards, l.content.people, l.content.organizations, l.content.work,
     l.content.administrative, l.content.thoughts, l.content.sources]
  }

  /** The folders kept inside another one. */
  predicate Nested(l: Layout) {
    var c := l.content;
    && c.people <= c.contacts && c.people <= c.authors
    && c.administrative <= c.health && c.administrative <= c.home && c.administrative <= c.finance
    && c.administrative <= c.travel && c.administrative <= c.administrativeGeneral
  }

  predicate KeyAllowed(key: string) {
    && (forall i | 0 <= i < |key| :: key[i] == '_' || 'a' <= key[i] <= 'z' || '0' <= key[i] <= '9')
    && (exists i | 0 <= i < |key| :: key[i] != '_')
    && key != "work" && key != "health" && key != "household" && key != "finance" && key != "travel" && key != "administration"
  }

  lemma KeyAllowedIff(key: string)
    ensures DomainKeyOk(key) <==> KeyAllowed(key)
  {
    if DomainKeyOk(key) {
      var i :| 0 <= i < |key| && SlugChar(key[i]);
      assert key[i] != '_';
    }
    if KeyAllowed(key) {
      var i :| 0 <= i < |key| && key[i] != '_';
      assert SlugChar(key[i]);
    }
  }

  lemma ContentIff(l: Layout)
    ensures RootsOk(l.system, l.inbox, l.dashboards) && ContentOk(l) <==> NoneSharedAmong(Tops(l)) && Nested(l)
  {
    AmongIff(Tops(l));
    if RootsOk(l.system, l.inbox, l.dashboards) && ContentOk(l) {
      TopsApart(l);
      ContentNested(l);
    }
    hide RootsOk, ContentOk, Nested, Apart, Tops;
    if NoneSharedAmong(Tops(l)) && Nested(l) { ContentApart(l); }
  }

  lemma AmongIff(folders: seq<Path>)
    ensures NoneSharedAmong(folders) <==> forall i, j | 0 <= i < j < |folders| :: Apart(folders[i], folders[j])
  {
    forall i, j | 0 <= i < j < |folders| ensures Apart(folders[i], folders[j]) <==> NoneShared(folders[i], folders[j]) {
      ApartIff(folders[i], folders[j]);
    }
    hide Apart, NoneShared;
  }

  lemma ContentNested(l: Layout)
    requires ContentOk(l)
    ensures Nested(l)
  {
    hide Apart, ApartFromReserved;
    var c := l.content;
    assert Under(c.At(Health), c.At(Administrative)) && Under(c.At(Home), c.At(Administrative))
        && Under(c.At(Finance), c.At(Administrative)) && Under(c.At(Travel), c.At(Administrative))
        && Under(c.At(AdministrativeGeneral), c.At(Administrative));
  }

  function TopFolder(r: Role): (k: nat)
    requires TopLevel(r)
    ensures 3 <= k < 9
  {
    match r
    case People => 3 case Organizations => 4 case Work => 5 case Administrative => 6 case Thoughts => 7 case Sources => 8
  }

  lemma TopFolderIs(l: Layout, r: Role)
    requires TopLevel(r)
    ensures l.content.At(r) == Tops(l)[TopFolder(r)]
  {
  }

  lemma TopsApart(l: Layout)
    requires RootsOk(l.system, l.inbox, l.dashboards) && ContentOk(l)
    ensures forall i, j | 0 <= i < j < 9 :: Apart(Tops(l)[i], Tops(l)[j])
  {
    hide Apart;
    var t := Tops(l);
    forall i, j | 0 <= i < j < 9 ensures Apart(t[i], t[j]) {
      if j < 3 {
      } else {
        var s := TopOfFolder(j);
        TopFolderIs(l, s);
        ApartSymmetric(l.content.At(s), t[i]);
        assert ApartFromReserved(l.content.At(s), l);
        if i >= 3 {
          TopFolderIs(l, TopOfFolder(i));
        }
      }
    }
  }

  function TopOfFolder(k: nat): (r: Role)
    requires 3 <= k < 9
    ensures TopLevel(r) && TopFolder(r) == k
  {
    if k == 3 then People else if k == 4 then Organizations else if k == 5 then Work
    else if k == 6 then Administrative else if k == 7 then Thoughts else Sources
  }

  lemma ContentApart(l: Layout)
    requires (forall i, j | 0 <= i < j < 9 :: Apart(Tops(l)[i], Tops(l)[j])) && Nested(l)
    ensures RootsOk(l.system, l.inbox, l.dashboards) && ContentOk(l)
  {
    var t, c := Tops(l), l.content;
    assert l.system == t[0] && l.inbox == t[1] && l.dashboards == t[2];
    hide Apart, Tops;
    forall r: Role | TopLevel(r) ensures ApartFromReserved(c.At(r), l) {
      TopFolderIs(l, r);
      ApartSymmetric(t[0], c.At(r));
      ApartSymmetric(t[1], c.At(r));
      ApartSymmetric(t[2], c.At(r));
    }
    forall r, s | TopLevel(r) && TopLevel(s) && r != s ensures Apart(c.At(r), c.At(s)) {
      TopFolderIs(l, r);
      TopFolderIs(l, s);
      ApartSymmetric(c.At(r), c.At(s));
    }
    forall r: Role ensures ApartFromReserved(c.At(r), l) && Under(c.At(r), c.At(TopOf(r))) {
      ApartBelow(c.At(TopOf(r)), l.system, c.At(r));
      ApartBelow(c.At(TopOf(r)), l.inbox, c.At(r));
      ApartBelow(c.At(TopOf(r)), l.dashboards, c.At(r));
    }
  }

  /** A layout is valid if and only if no file is in two of its nine top-level folders, the folders of
      people and of administration are nested in theirs, each domain has a legal key and shares no file with
      a top-level folder or another domain, and the custom folders are distinct and share no file with the
      three reserved folders. Everything else the validator compares follows. */
  lemma ValidIff(l: Layout)
    ensures ValidLayout(l) <==>
      && NoneSharedAmong(Tops(l)) && Nested(l)
      && (forall d | 0 <= d < |l.domains| ::
            KeyAllowed(l.domains[d].0) && forall k | 0 <= k < 9 :: NoneShared(l.domains[d].1, Tops(l)[k]))
      && (forall d, e | 0 <= d < e < |l.domains| :: NoneShared(l.domains[d].1, l.domains[e].1))
      && (forall i, k | 0 <= i < |l.customs| && 0 <= k < 3 :: NoneShared(l.customs[i].path, Tops(l)[k]))
      && (forall i, j | 0 <= i < j < |l.customs| :: l.customs[i].path != l.customs[j].path)
  {
    ContentIff(l);
    hide RootsOk, ContentOk, NoneSharedAmong, Nested, NoneShared, KeyAllowed, DomainKeyOk, Apart;
    if NoneSharedAmong(Tops(l)) && Nested(l) {
      forall d | 0 <= d < |l.domains|
        ensures DomainOk(l, d) <==>
          KeyAllowed(l.domains[d].0) && forall k | 0 <= k < 9 :: NoneShared(l.domains[d].1, Tops(l)[k])
      {
        KeyAllowedIff(l.domains[d].0);
        DomainApartIff(l, d);
      }
    }
    forall p: Path, q: Path ensures Apart(p, q) <==> NoneShared(p, q) { ApartIff(p, q); }
    var t := Tops(l);
    assert t[0] == l.system && t[1] == l.inbox && t[2] == l.dashboards;
  }

  lemma DomainApartIff(l: Layout, d: nat)
    requires d < |l.domains| && Nested(l)
    ensures (ApartFromReserved(l.domains[d].1, l) && forall r: Role :: Apart(l.domains[d].1, l.content.At(r)))
       <==> forall k | 0 <= k < 9 :: NoneShared(l.domains[d].1, Tops(l)[k])
  {
    var p, t, c := l.domains[d].1, Tops(l), l.content;
    forall k | 0 <= k < 9 ensures Apart(p, t[k]) <==> NoneShared(p, t[k]) { ApartIff(p, t[k]); }
    assert t[0] == l.system && t[1] == l.inbox && t[2] == l.dashboards;
    hide NoneShared, Apart, Tops;
    if ApartFromReserved(p, l) && forall r: Role :: Apart(p, c.At(r)) {
      forall k | 0 <= k < 9 ensures NoneShared(p, t[k]) {
        if k >= 3 { TopFolderIs(l, TopOfFolder(k)); }
      }
    }
    if forall k | 0 <= k < 9 :: NoneShared(p, t[k]) {
      assert NoneShared(p, t[0]) && NoneShared(p, t[1]) && NoneShared(p, t[2]);
      forall r: Role ensures Apart(p, c.At(r)) {
        TopFolderIs(l, TopOf(r));
        NestedUnder(l, r);
        ApartSymmetric(p, c.At(TopOf(r)));
        ApartBelow(c.At(TopOf(r)), p, c.At(r));
        ApartSymmetric(c.At(r), p);
      }
    }
  }

  lemma NestedUnder(l: Layout, r: Role)
    requires Nested(l)
    ensures Under(l.content.At(r), l.content.At(TopOf(r)))
  {
  }

  // ---- what the configuration asks for ----

  /** A role the configuration does not name keeps its default folder. */
  lemma {:induction false} ConfiguredDefault(content: seq<(ContentKey, RawPath)>, r: Role)
    requires forall i | 0 <= i < |content| :: content[i].0 != Known(r)
    ensures Configured(content).At(r) == DEFAULT_CONTENT.At(r)
  {
    hide ContentDirs.At;
    if content != [] { ConfiguredDefault(content[..|content| - 1], r); }
  }

  /** A role it names has the folder of the last entry for it. */
  lemma {:induction false} ConfiguredLast(content: seq<(ContentKey, RawPath)>, r: Role, i: nat)
    requires i < |content| && content[i].0 == Known(r) && forall j | i < j < |content| :: content[j].0 != Known(r)
    ensures Configured(content).At(r) == content[i].1.parts
  {
    hide ContentDirs.At;
    if i < |content| - 1 { ConfiguredLast(content[..|content| - 1], r, i); }
  }
}
