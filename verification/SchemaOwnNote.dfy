/** What the schema note says of a schema, what a sync takes from a parsed note, and what happens when
    the note still says exactly what the schema says. */
module SchemaOwnNote {
  import opened Text
  import opened NoteBody
  import opened SchemaSync
  import opened SchemaTerms
  import opened SchemaNote
  import opened SchemaGuard

  // ---- what the note of a schema says ----

  function ValueListing(b: Vocabulary, p: Property): (l: Listing)
    ensures |l| == |Current(b, p)|
    ensures forall i | 0 <= i < |l| :: l[i] == (Current(b, p)[i], TextOf(Definitions(b, p.definitions), Current(b, p)[i]))
    ensures Values(l) == Current(b, p)
  {
    var current, defs := Current(b, p), Definitions(b, p.definitions);
    seq(|current|, i requires 0 <= i < |current| => (current[i], TextOf(defs, current[i])))
  }

  function TypeListing(b: TypeVocabulary, t: Types): (l: Listing)
    ensures |l| == |CurrentTypes(b, t)|
    ensures forall i | 0 <= i < |l| :: l[i] == (CurrentTypes(b, t)[i], TypeDefinition(b, t, CurrentTypes(b, t)[i]))
    ensures Values(l) == CurrentTypes(b, t)
  {
    var current := CurrentTypes(b, t);
    seq(|current|, i requires 0 <= i < |current| => (current[i], TypeDefinition(b, t, current[i])))
  }

  function KindListing(b: Builtins, s: Schema, k: Kind): Listing {
    match k
    case NoteTypes => TypeListing(b.types, s.types)
    case Of(f) => ValueListing(b.values(f), s.Stored(f))
  }

  function KindListings(b: Builtins, s: Schema): Kind -> Listing {
    k => KindListing(b, s, k)
  }

  /** The domains that have hubs, in their order. */
  function HubListing(registry: map<string, Listing>, domains: seq<string>): seq<(string, Listing)> {
    if domains == [] then []
    else
      var hubs := CurrentHubs(HubsOf(registry, domains[0]));
      (if hubs == [] then [] else [(domains[0], hubs)]) + HubListing(registry, domains[1..])
  }

  /** The declared properties, the built-in ones first; `lists` are the built-in ones that hold lists. */
  function DeclaredOf(b: Vocabulary, lists: set<string>, p: Properties): (ds: seq<Declared>)
    ensures |ds| == |b.builtin + p.names|
    ensures forall i | 0 <= i < |ds| ::
              var n := (b.builtin + p.names)[i]; ds[i] == Declared(n, n in p.lists + lists, TextOf(Definitions(b, p.definitions), n))
  {
    var names, defs := b.builtin + p.names, Definitions(b, p.definitions);
    seq(|names|, i requires 0 <= i < |names| => Declared(names[i], names[i] in p.lists + lists, TextOf(defs, names[i])))
  }

  /** What `render_schema_note` takes from the schema. */
  function ContentsOf(b: Builtins, lists: set<string>, s: Schema): Contents {
    Contents(DeclaredOf(b.properties, lists, s.properties), KindListings(b, s),
             HubListing(s.hubs, Current(b.values(Domain), s.Stored(Domain))))
  }

  // ---- what the sync takes from the parser ----

  function PropertyListing(ds: seq<Declared>): (l: Listing)
    ensures |l| == |ds| && forall i | 0 <= i < |l| :: l[i] == (ds[i].name, ds[i].definition)
  {
    seq(|ds|, i requires 0 <= i < |ds| => (ds[i].name, ds[i].definition))
  }

  function FieldListings(r: Reader): Field -> Listing {
    f => r.Read(Of(f))
  }

  function ParsedFrom(r: Reader, dashboards: seq<(string, string)>): Parsed {
    Parsed(r.Read(NoteTypes), FieldListings(r), r.hubs, PropertyListing(r.properties),
           set i | 0 <= i < |r.properties| && r.properties[i].isList :: r.properties[i].name, dashboards)
  }

  // ---- every note parses to something a sync can take ----

  ghost predicate NamesOk(ds: seq<Declared>) {
    (forall i | 0 <= i < |ds| :: ds[i].name != "") && (forall i, j | 0 <= i < j < |ds| :: ds[i].name != ds[j].name)
  }

  ghost predicate ReaderOk(r: Reader) {
    && (forall k | k in r.values :: ListingOk(r.values[k])) && (forall d | d in r.hubs :: HubListOk(r.hubs[d]))
    && NamesOk(r.properties)
  }

  lemma SetInOk(l: Listing, value: string, definition: string)
    requires ListingOk(l) && value != ""
    ensures ListingOk(SetIn(l, value, definition))
  {
    if value !in Values(l) { assert Values(l + [(value, definition)]) == Values(l) + [value]; }
  }

  lemma {:induction false} SetPropertyOk(ds: seq<Declared>, d: Declared)
    requires NamesOk(ds) && d.name != ""
    ensures NamesOk(SetProperty(ds, d))
    ensures forall i | 0 <= i < |SetProperty(ds, d)| :: SetProperty(ds, d)[i].name == d.name || exists j | 0 <= j < |ds| :: ds[j].name == SetProperty(ds, d)[i].name
  {
    if ds != [] && ds[0].name != d.name {
      var rest := SetProperty(ds[1..], d);
      SetPropertyOk(ds[1..], d);
      assert SetProperty(ds, d) == [ds[0]] + rest;
      forall i | 0 <= i < |rest| ensures rest[i].name != ds[0].name {}
    } else if ds != [] {
      assert SetProperty(ds, d) == [d] + ds[1..];
    }
  }

  lemma SplitTrimmed(text: string)
    ensures Trimmed(SplitValue(text).0)
  {
    var n := FirstSeparator(text, 0);
    var value := if n == |text| then text else text[..n];
    StripIsTrimmed(DropTicksRight(DropTicksLeft(Strip(value))));
    hide Strip, Trimmed, FirstSeparator, DropTicksLeft, DropTicksRight;
  }

  lemma BulletOk(r: Reader, text: string)
    requires ReaderOk(r)
    ensures ReaderOk(TakeBullet(r, text))
  {
    SplitTrimmed(text);
    var (value, definition) := SplitValue(text);
    hide SplitValue, SplitType, SetIn, SetProperty, ListingOk, HubListOk, NamesOk, Trimmed;
    if value != "" {
      match r.section
      case NoSection =>
      case HubsSection => OneMoreHub(HubsOf(r.hubs, r.hubDomain), value, definition);
      case PropertySection =>
        var (name, isList) := SplitType(value);
        if name != "" { SetPropertyOk(r.properties, Declared(name, isList, definition)); }
      case ValueSection(k) =>
        EmptyListingOk();
        SetInOk(r.Read(k), value, definition);
    }
  }

  lemma EmptyListingOk()
    ensures ListingOk([]) && HubListOk([]) && NamesOk([])
  {
  }

  lemma OneMoreHub(l: Listing, value: string, definition: string)
    requires value != "" && Trimmed(value)
    ensures HubListOk(l) ==> HubListOk(l + [(value, definition)])
    ensures HubListOk([])
  {
    hide Trimmed;
  }

  lemma {:induction false} LinesReadOk(r: Reader, lines: seq<string>)
    requires ReaderOk(r)
    ensures ReaderOk(TakeLines(r, lines))
    decreases |lines|
  {
    hide ReaderOk, ParseHeading, ParseBullet, TakeBullet;
    if lines != [] {
      HeadingOk(r, lines[0]);
      LinesReadOk(TakeLine(r, lines[0]), lines[1..]);
    }
  }

  lemma HeadingOk(r: Reader, line: string)
    requires ReaderOk(r)
    ensures ReaderOk(TakeLine(r, line))
  {
    if ParseBullet(line).Some? { BulletOk(r, ParseBullet(line).value); }
    hide ParseHeading, ParseBullet, TakeBullet, SectionOf, LowerAscii, ListingOk, HubListOk, NamesOk;
  }

  /** Whatever text the note holds, what is parsed from it is fit for a sync: no value is empty or listed
      twice, and no hub name is empty or padded. */
  lemma AnyNoteParsed(text: string, dashboards: seq<(string, string)>)
    ensures ParsedOk(ParsedFrom(TakeLines(EMPTY, SplitLines(text)), dashboards))
  {
    EmptyListingOk();
    assert ReaderOk(EMPTY);
    LinesReadOk(EMPTY, SplitLines(text));
    ReadParsed(TakeLines(EMPTY, SplitLines(text)), dashboards);
  }

  /** So for any text of the note: nothing that was allowed and is used is dropped, what is allowed
      afterwards was built in, noted, or allowed before, and a second sync of the same text changes nothing. */
  lemma AnyNoteIsSafe(b: Builtins, s: Schema, text: string, dashboards: seq<(string, string)>, entries: seq<Entry>, i: Item)
    requires BuiltinsOk(b)
    ensures var n := ParsedFrom(TakeLines(EMPTY, SplitLines(text)), dashboards);
            && (Allows(b, s, i) && Used(entries, i) ==> Allows(b, Sync(b, s, n, entries), i))
            && (Allows(b, Sync(b, s, n, entries), i) ==> BuiltIn(b, i) || Noted(n, i) || Allows(b, s, i))
            && Sync(b, Sync(b, s, n, entries), n, entries) == Sync(b, s, n, entries)
  {
    hide *;
    var n := ParsedFrom(TakeLines(EMPTY, SplitLines(text)), dashboards);
    AnyNoteParsed(text, dashboards);
    SyncAllowsExactly(b, s, n, entries, i);
    SyncIdempotent(b, s, n, entries);
    if Allows(b, s, i) && Used(entries, i) { SyncSafe(b, s, n, entries, i); }
  }

  lemma ReadParsed(r: Reader, dashboards: seq<(string, string)>)
    requires ReaderOk(r)
    ensures ParsedOk(ParsedFrom(r, dashboards))
  {
    EmptyListingOk();
    hide ListingOk, HubListOk;
    var l := PropertyListing(r.properties);
    assert ListingOk(l) by { NamesListed(r.properties); }
  }

  lemma NamesListed(ds: seq<Declared>)
    requires NamesOk(ds)
    ensures ListingOk(PropertyListing(ds))
  {
  }

  // ---- controlled values and note types ----

  lemma {:induction false} DefinitionAt(l: Listing, i: nat)
    requires Distinct(Values(l)) && i < |l|
    ensures DefinitionIn(l, l[i].0) == Strip(l[i].1)
  {
    hide Strip;
    if i > 0 {
      assert Values(l)[0] == l[0].0 && Values(l)[i] == l[i].0;
      forall j, k | 0 <= j < k < |l[1..]| ensures Values(l[1..])[j] != Values(l[1..])[k] {
        assert Values(l)[j + 1] == l[1..][j].0 && Values(l)[k + 1] == l[1..][k].0;
      }
      DefinitionAt(l[1..], i - 1);
    }
  }

  lemma StripTwice(s: string)
    ensures Strip(Strip(s)) == Strip(s)
  {
    StripIsTrimmed(s);
    StripTrimmed(Strip(s));
  }

  /** A printed definition is read back as it was, stripped. */
  lemma DefinitionBack(l: Listing, i: nat)
    requires Distinct(Values(l)) && i < |l|
    ensures DefinitionIn(Stripped(l), l[i].0) == Strip(l[i].1)
  {
    hide Strip;
    StripTwice(l[i].1);
    DefinitionAt(Stripped(l), i);
    assert Stripped(l)[i] == (l[i].0, Strip(l[i].1));
  }

  lemma NothingNew(s: seq<string>, l: Listing, edits: string -> bool, used: string -> bool)
    requires Values(l) == s && forall v | v in s :: !edits(v)
    ensures Keep(Values(l), NotIn(s)) == [] && Keep(Values(l), edits) == [] && Keep(s, Drops(l, used)) == [] && Keep(s, Blocks(l, used)) == []
  {
    KeepNone(Values(l), NotIn(s));
    KeepNone(Values(l), edits);
    KeepNone(s, Drops(l, used));
    KeepNone(s, Blocks(l, used));
  }

  lemma OwnValues(b: Vocabulary, p: Property, used: string -> bool)
    requires Distinct(Values(ValueListing(b, p)))
    ensures ControlledReport(b, p, Stripped(ValueListing(b, p)), used) == NOTHING
  {
    hide Current, Definitions, Strip;
    var l := ValueListing(b, p);
    forall v | v in Current(b, p) ensures !Edits(b, p, Stripped(l))(v) {
      var i :| 0 <= i < |l| && l[i].0 == v by { assert v in Values(l); }
      DefinitionBack(l, i);
      StripEmpty();
    }
    NothingNew(Current(b, p), Stripped(l), Edits(b, p, Stripped(l)), used);
  }

  lemma StripEmpty()
    ensures Strip("") == ""
  {
  }

  lemma DescribedTrimmed(b: TypeVocabulary, t: Types, v: string)
    ensures Strip(TypeDefinition(b, t, v)) == TypeDefinition(b, t, v)
  {
    StripEmpty();
    if v in b.builtin && v in b.specs && "description" in b.specs[v] { StripTwice(b.specs[v]["description"]); }
    if v in t.specs && "description" in t.specs[v] { StripTwice(t.specs[v]["description"]); }
  }

  lemma OwnTypes(b: TypeVocabulary, t: Types, used: string -> bool)
    requires Distinct(Values(TypeListing(b, t)))
    ensures TypesReport(b, t, Stripped(TypeListing(b, t)), used) == NOTHING
  {
    hide CurrentTypes, TypeDefinition, Strip;
    var l := TypeListing(b, t);
    forall v | v in CurrentTypes(b, t) ensures !TypeEdits(b, t, Stripped(l))(v) {
      var i :| 0 <= i < |l| && l[i].0 == v by { assert v in Values(l); }
      DefinitionBack(l, i);
      DescribedTrimmed(b, t, v);
    }
    NothingNew(CurrentTypes(b, t), Stripped(l), TypeEdits(b, t, Stripped(l)), used);
  }

  // ---- hubs ----

  lemma AsDictSnoc(m: Listing, last: (string, string))
    requires last.0 !in Values(AsDict(m))
    ensures AsDict(m + [last]) == AsDict(m) + [last]
  {
    hide Replaced;
    assert (m + [last])[..|m|] == m;
  }

  lemma {:induction false} AsDictSame(l: Listing)
    requires Distinct(Values(l))
    ensures AsDict(l) == l
  {
    if l != [] {
      var m, last := l[..|l| - 1], l[|l| - 1];
      hide AsDict;
      assert Values(m) == Values(l)[..|m|];
      AsDictSame(m);
      assert Values(l)[|m|] == last.0 && last.0 !in Values(m);
      AsDictSnoc(m, last);
      assert l == m + [last];
    } else {
      assert AsDict([]) == [];
    }
  }

  lemma OwnHubs(hubs: Listing, used: string -> bool)
    ensures DomainHubsReport(hubs, CurrentHubs(hubs), used) == NOTHING
  {
    var cur := CurrentHubs(hubs);
    CurrentHubsNamed(hubs);
    hide CurrentHubs;
    AsDictSame(cur);
    NothingNew(Values(cur), cur, HubEdits(cur, cur), used);
  }

  lemma HubsStripped(hubs: Listing)
    ensures Stripped(CurrentHubs(hubs)) == CurrentHubs(hubs)
  {
    var cur := CurrentHubs(hubs);
    CurrentHubsNamed(hubs);
    hide CurrentHubs, Strip;
    forall i | 0 <= i < |cur| ensures Strip(cur[i].1) == cur[i].1 { StripTrimmed(cur[i].1); }
  }

  lemma {:induction false} HubListingMember(registry: map<string, Listing>, domains: seq<string>, h: (string, Listing))
    ensures h in HubListing(registry, domains) <==> h.0 in domains && h.1 != [] && h.1 == CurrentHubs(HubsOf(registry, h.0))
  {
    hide CurrentHubs;
    if domains != [] { HubListingMember(registry, domains[1..], h); }
  }

  lemma {:induction false} HubsToAt(hubs: seq<(string, Listing)>, k: nat, i: nat)
    requires i < k <= |hubs| && forall x, y | 0 <= x < y < |hubs| :: hubs[x].0 != hubs[y].0
    ensures hubs[i].0 in HubsTo(hubs, k) && HubsTo(hubs, k)[hubs[i].0] == Stripped(hubs[i].1)
  {
    hide Strip;
    if i < k - 1 { HubsToAt(hubs, k - 1, i); }
  }

  /** Every hub with a name is filed under an allowed domain. */
  ghost predicate HubsFiled(registry: map<string, Listing>, domains: seq<string>) {
    forall d | d in registry :: CurrentHubs(registry[d]) != [] ==> d in domains
  }

  /** Printed and parsed, the hubs of each domain are exactly the current ones. */
  lemma HubsBack(registry: map<string, Listing>, domains: seq<string>, d: string)
    requires HubsFiled(registry, domains)
    requires var hubs := HubListing(registry, domains); forall x, y | 0 <= x < y < |hubs| :: hubs[x].0 != hubs[y].0
    ensures var hubs := HubListing(registry, domains); HubsOf(HubsTo(hubs, |hubs|), d) == CurrentHubs(HubsOf(registry, d))
  {
    var hubs := HubListing(registry, domains);
    var cur := CurrentHubs(HubsOf(registry, d));
    HubsStripped(HubsOf(registry, d));
    assert d !in registry ==> cur == [];
    hide CurrentHubs, HubListing;
    HubsToKeys(hubs, |hubs|, d);
    HubListingMember(registry, domains, (d, cur));
    if d in HubsTo(hubs, |hubs|) {
      var i :| 0 <= i < |hubs| && hubs[i].0 == d;
      HubListingMember(registry, domains, hubs[i]);
      HubsToAt(hubs, |hubs|, i);
    }
  }

  // ---- properties ----

  lemma OwnPropertyValues(b: Vocabulary, lists: set<string>, p: Properties)
    ensures Values(PropertyListing(StrippedProperties(DeclaredOf(b, lists, p)))) == b.builtin + p.names
  {
    hide Definitions, Strip;
  }

  lemma OwnProperties(b: Vocabulary, lists: set<string>, p: Properties, used: string -> bool)
    requires Distinct(b.builtin + p.names)
    ensures PropertiesReport(b, p, PropertyListing(StrippedProperties(DeclaredOf(b, lists, p))), used) == NOTHING
  {
    hide Definitions, Strip;
    var l := PropertyListing(StrippedProperties(DeclaredOf(b, lists, p)));
    OwnPropertyValues(b, lists, p);
    var names := b.builtin + p.names;
    forall v | v in names ensures !PropertyEdits(b, p, l)(v) {
      var i :| 0 <= i < |names| && names[i] == v;
      DefinitionAt(l, i);
      StripEmpty();
      StripTwice(TextOf(Definitions(b, p.definitions), v));
    }
    KeepNone(Values(l), NotIn(names));
    KeepNone(Values(l), PropertyEdits(b, p, l));
    KeepNone(p.names, Drops(l, used));
    KeepNone(p.names, Blocks(l, used));
  }

  // ---- the whole note ----

  /** The note says exactly what the schema says, with every definition stripped. */
  ghost predicate Echoes(b: Builtins, lists: set<string>, s: Schema, n: Parsed) {
    var hubs := HubListing(s.hubs, Current(b.values(Domain), s.Stored(Domain)));
    && n.types == Stripped(TypeListing(b.types, s.types))
    && (forall f: Field :: n.values(f) == Stripped(ValueListing(b.values(f), s.Stored(f))))
    && n.hubs == HubsTo(hubs, |hubs|)
    && n.properties == PropertyListing(StrippedProperties(DeclaredOf(b.properties, lists, s.properties)))
    && (forall v: string :: v in n.lists <==> v in b.properties.builtin + s.properties.names && v in s.properties.lists + lists)
  }

  /** What the parser recovers from a printed schema is what the schema says. */
  lemma ReadEchoes(b: Builtins, lists: set<string>, s: Schema, r: Reader, dashboards: seq<(string, string)>)
    requires var c := ContentsOf(b, lists, s);
             && r.properties == StrippedProperties(c.properties)
             && (forall k: Kind :: r.Read(k) == Stripped(c.values(k)))
             && r.hubs == HubsTo(c.hubs, |c.hubs|)
    ensures Echoes(b, lists, s, ParsedFrom(r, dashboards))
  {
    var names := b.properties.builtin + s.properties.names;
    var ds := DeclaredOf(b.properties, lists, s.properties);
    hide TypeListing, ValueListing, HubListing, Reader.Read, Current, Stripped, HubsTo, PropertyListing, Definitions;
    assert r.Read(NoteTypes) == Stripped(TypeListing(b.types, s.types));
    forall f: Field ensures r.Read(Of(f)) == Stripped(ValueListing(b.values(f), s.Stored(f))) {
      assert KindListings(b, s)(Of(f)) == ValueListing(b.values(f), s.Stored(f));
    }
    forall v: string
      ensures v in ParsedFrom(r, dashboards).lists <==> v in names && v in s.properties.lists + lists
    {
      if v in names && v in s.properties.lists + lists {
        var i :| 0 <= i < |names| && names[i] == v;
        assert r.properties[i].name == v && r.properties[i].isList;
      }
    }
  }

  lemma ContentsDistinct(b: Builtins, lists: set<string>, s: Schema)
    requires ContentsOk(ContentsOf(b, lists, s))
    ensures Distinct(Values(TypeListing(b.types, s.types)))
    ensures forall f: Field :: Distinct(Values(ValueListing(b.values(f), s.Stored(f))))
    ensures var hubs := HubListing(s.hubs, Current(b.values(Domain), s.Stored(Domain)));
            forall x, y | 0 <= x < y < |hubs| :: hubs[x].0 != hubs[y].0
    ensures Distinct(b.properties.builtin + s.properties.names)
  {
    var c := ContentsOf(b, lists, s);
    hide TypeListing, ValueListing, HubListing, Current, PlainValue, PlainName, LineRun, Trimmed, Definitions;
    assert PlainListing(c.values(NoteTypes));
    forall f: Field ensures Distinct(Values(ValueListing(b.values(f), s.Stored(f)))) { assert PlainListing(c.values(Of(f))); }
    var names := b.properties.builtin + s.properties.names;
    forall i, j | 0 <= i < j < |names| ensures names[i] != names[j] {
      assert c.properties[i].name == names[i] && c.properties[j].name == names[j];
    }
  }

  lemma EchoParts(b: Builtins, lists: set<string>, s: Schema, n: Parsed, f: Field, d: string)
    requires Echoes(b, lists, s, n) && ContentsOk(ContentsOf(b, lists, s))
    requires HubsFiled(s.hubs, Current(b.values(Domain), s.Stored(Domain)))
    ensures n.types == Stripped(TypeListing(b.types, s.types)) && Distinct(Values(TypeListing(b.types, s.types)))
    ensures n.values(f) == Stripped(ValueListing(b.values(f), s.Stored(f))) && Distinct(Values(ValueListing(b.values(f), s.Stored(f))))
    ensures HubsOf(n.hubs, d) == CurrentHubs(HubsOf(s.hubs, d))
    ensures n.properties == PropertyListing(StrippedProperties(DeclaredOf(b.properties, lists, s.properties)))
    ensures Distinct(b.properties.builtin + s.properties.names)
    ensures forall v: string :: v in n.lists <==> v in b.properties.builtin + s.properties.names && v in s.properties.lists + lists
  {
    assert n.values(f) == Stripped(ValueListing(b.values(f), s.Stored(f)));
    var hubs := HubListing(s.hubs, Current(b.values(Domain), s.Stored(Domain)));
    assert n.types == Stripped(TypeListing(b.types, s.types)) && n.hubs == HubsTo(hubs, |hubs|);
    assert n.properties == PropertyListing(StrippedProperties(DeclaredOf(b.properties, lists, s.properties)));
    assert forall v: string :: v in n.lists <==> v in b.properties.builtin + s.properties.names && v in s.properties.lists + lists;
    hide *;
    ContentsDistinct(b, lists, s);
    HubsBack(s.hubs, Current(b.values(Domain), s.Stored(Domain)), d);
  }

  /** Syncing a note that says what the schema says reports nothing added, edited, removed or blocked in
      any of its sections, whatever the vault contains; only the dashboard requests can differ. */
  lemma EchoReportsNothing(b: Builtins, lists: set<string>, s: Schema, n: Parsed, entries: seq<Entry>)
    requires Echoes(b, lists, s, n) && ContentsOk(ContentsOf(b, lists, s))
    requires HubsFiled(s.hubs, Current(b.values(Domain), s.Stored(Domain)))
    ensures TypesReport(b.types, s.types, n.types, Uses(entries, "type")) == NOTHING
    ensures forall f: Field :: FieldReport(b, s, n, entries, f) == NOTHING
    ensures forall d: string :: DomainHubsReport(HubsOf(s.hubs, d), HubsOf(n.hubs, d), PointsTo(entries)) == NOTHING
    ensures PropertiesReport(b.properties, s.properties, n.properties, CarriedBy(entries)) == NOTHING
    ensures Changed(b, s, n, entries) <==> DashboardsChanged(s.dashboards, n.dashboards)
  {
    hide *;
    EchoParts(b, lists, s, n, Status, "");
    OwnTypes(b.types, s.types, Uses(entries, "type"));
    forall f: Field ensures FieldReport(b, s, n, entries, f) == NOTHING {
      EchoParts(b, lists, s, n, f, "");
      OwnField(b, s, n, entries, f);
    }
    forall d: string ensures DomainHubsReport(HubsOf(s.hubs, d), HubsOf(n.hubs, d), PointsTo(entries)) == NOTHING {
      EchoParts(b, lists, s, n, Status, d);
      OwnHubs(HubsOf(s.hubs, d), PointsTo(entries));
    }
    OwnProperties(b.properties, lists, s.properties, CarriedBy(entries));
    NothingChanged(b, s, n, entries);
  }

  lemma OwnField(b: Builtins, s: Schema, n: Parsed, entries: seq<Entry>, f: Field)
    requires n.values(f) == Stripped(ValueListing(b.values(f), s.Stored(f))) && Distinct(Values(ValueListing(b.values(f), s.Stored(f))))
    ensures FieldReport(b, s, n, entries, f) == NOTHING
  {
    OwnValues(b.values(f), s.Stored(f), Uses(entries, Key(f)));
    hide ControlledReport, Stripped, ValueListing, Key;
  }

  lemma NothingChanged(b: Builtins, s: Schema, n: Parsed, entries: seq<Entry>)
    requires TypesReport(b.types, s.types, n.types, Uses(entries, "type")) == NOTHING
    requires forall f: Field :: FieldReport(b, s, n, entries, f) == NOTHING
    requires forall d: string :: DomainHubsReport(HubsOf(s.hubs, d), HubsOf(n.hubs, d), PointsTo(entries)) == NOTHING
    requires PropertiesReport(b.properties, s.properties, n.properties, CarriedBy(entries)) == NOTHING
    ensures Changed(b, s, n, entries) <==> DashboardsChanged(s.dashboards, n.dashboards)
  {
    hide TypesReport, FieldReport, DomainHubsReport, PropertiesReport, DashboardsChanged;
  }

  /** A note that says what the schema says makes no silent edit either, if the built-in properties are the
      only ones that hold lists without being stored so. */
  lemma EchoIsNotSilent(b: Builtins, lists: set<string>, s: Schema, n: Parsed)
    requires Echoes(b, lists, s, n) && ContentsOk(ContentsOf(b, lists, s)) && BuiltinsOk(b)
    requires HubsFiled(s.hubs, Current(b.values(Domain), s.Stored(Domain)))
    requires forall v | v in s.properties.names && v in lists :: v in s.properties.lists
    ensures !EditsSilently(b, s, n)
  {
    hide *;
    SilentlyIs(b, s, n);
    forall f: Field, v: string ensures !ClearsValue(b.values(f), s.Stored(f), n.values(f), v) {
      EchoParts(b, lists, s, n, f, "");
      VocabulariesOk(b, f);
      NoValueCleared(b.values(f), s.Stored(f), v);
    }
    forall d: string, v: string ensures !ClearsHub(HubsOf(s.hubs, d), HubsOf(n.hubs, d), v) {
      EchoParts(b, lists, s, n, Status, d);
      NoHubCleared(HubsOf(s.hubs, d), v);
    }
    EchoParts(b, lists, s, n, Status, "");
    VocabulariesOk(b, Status);
    forall v: string
      ensures !Retypes(s.properties, n.properties, n.lists, v) && !ClearsProperty(b.properties, s.properties, n.properties, v)
    {
      NoPropertyCleared(b.properties, lists, s.properties, v);
      NoRetype(b.properties, lists, s.properties, n.properties, n.lists, v);
    }
  }

  lemma VocabulariesOk(b: Builtins, f: Field)
    requires BuiltinsOk(b)
    ensures VocabularyOk(b.values(f)) && VocabularyOk(b.properties)
  {
    hide VocabularyOk, TypeVocabularyOk;
  }

  lemma NoRetype(b: Vocabulary, lists: set<string>, p: Properties, l: Listing, marked: set<string>, v: string)
    requires v in marked <==> v in b.builtin + p.names && v in p.lists + lists
    requires v in p.names && v in lists ==> v in p.lists
    ensures !Retypes(p, l, marked, v)
  {
  }

  lemma NoValueCleared(b: Vocabulary, p: Property, v: string)
    requires VocabularyOk(b) && Distinct(Values(ValueListing(b, p)))
    ensures !ClearsValue(b, p, Stripped(ValueListing(b, p)), v)
  {
    var l := ValueListing(b, p);
    MergedTrimmed(b, p.definitions);
    TextStays(b, p.definitions, v);
    hide Current, Definitions, Strip, Trimmed, VocabularyOk;
    if v in Values(Stripped(l)) {
      var i :| 0 <= i < |l| && l[i].0 == v by { assert v in Values(l); }
      DefinitionBack(l, i);
      if v in Definitions(b, p.definitions) { StripTrimmed(Definitions(b, p.definitions)[v]); }
    }
  }

  lemma NoHubCleared(hubs: Listing, v: string)
    ensures !ClearsHub(hubs, CurrentHubs(hubs), v)
  {
    CurrentHubsNamed(hubs);
    hide CurrentHubs;
    AsDictSame(CurrentHubs(hubs));
  }

  lemma NoPropertyCleared(b: Vocabulary, lists: set<string>, p: Properties, v: string)
    requires VocabularyOk(b) && Distinct(b.builtin + p.names)
    ensures !ClearsProperty(b, p, PropertyListing(StrippedProperties(DeclaredOf(b, lists, p))), v)
  {
    var l := PropertyListing(StrippedProperties(DeclaredOf(b, lists, p)));
    var names := b.builtin + p.names;
    OwnPropertyValues(b, lists, p);
    MergedTrimmed(b, p.definitions);
    TextStays(b, p.definitions, v);
    hide Definitions, Strip, Trimmed, VocabularyOk;
    if v in names {
      var i :| 0 <= i < |names| && names[i] == v;
      DefinitionAt(l, i);
      StripTwice(TextOf(Definitions(b, p.definitions), v));
      if v in Definitions(b, p.definitions) { StripTrimmed(Definitions(b, p.definitions)[v]); }
    }
  }
}
