/** What the schema allows after any history of edits of the schema note, changes in the vault, and syncs. */
module SchemaHistory {
  import opened Text
  import opened SchemaTerms
  import opened SchemaSync
  import opened SchemaNote
  import opened SchemaNoteText
  import opened SchemaGuard
  import opened SchemaOwnNote
  import NoteBody
  import Frontmatter

  /** The parser of the schema note; `requests` reads the ticked dashboard requests off a text. */
  function NoteParser(requests: string -> seq<(string, string)>): string -> Parsed {
    text => ParsedFrom(TakeLines(EMPTY, NoteBody.SplitLines(text)), requests(text))
  }

  /** The setting of the program: any built-in values, any hash, and its own parser. */
  function Program(b: Builtins, digest: string -> string, requests: string -> seq<(string, string)>): Setting {
    Setting(b, digest, NoteParser(requests))
  }

  ghost predicate SettingOk(c: Setting) {
    BuiltinsOk(c.builtins) && forall text: string :: ParsedOk(c.parse(text))
  }

  lemma ProgramOk(b: Builtins, digest: string -> string, requests: string -> seq<(string, string)>)
    requires BuiltinsOk(b)
    ensures SettingOk(Program(b, digest, requests))
  {
    hide BuiltinsOk, ParsedOk, ParsedFrom, TakeLines;
    forall text: string ensures ParsedOk(NoteParser(requests)(text)) {
      AnyNoteParsed(text, requests(text));
    }
  }

  // ---- one call ----

  /** A note without a properties section says nothing about properties. */
  predicate Silent(n: Parsed, i: Item) {
    i.PropertyItem? && n.properties == []
  }

  lemma UnreportedValues(b: Vocabulary, p: Property, l: Listing, used: string -> bool, v: string)
    requires !Changes(ControlledReport(b, p, l, used))
    ensures v in Current(b, p) <==> v in b.builtin || v in Values(l) || (v in Current(b, p) && used(v))
  {
    NoteFacts(b, p, l, used, v);
    KeepMember(Current(b, p), Blocks(l, used), v);
    BlockedCurrent(b, p, l, used, v);
    hide Current, Keep, ControlledReport, DefinitionIn;
  }

  lemma UnreportedTypes(b: TypeVocabulary, t: Types, l: Listing, used: string -> bool, v: string)
    requires !Changes(TypesReport(b, t, l, used))
    ensures v in CurrentTypes(b, t) <==> v in b.builtin || v in Values(l) || (v in CurrentTypes(b, t) && used(v))
  {
    TypeFacts(b, t, l, used, v);
    KeepMember(CurrentTypes(b, t), Blocks(l, used), v);
    hide CurrentTypes, Keep, TypesReport, DefinitionIn;
  }

  lemma UnreportedHubs(hubs: Listing, l: Listing, used: string -> bool, v: string)
    requires !Changes(DomainHubsReport(hubs, l, used))
    ensures v in Values(CurrentHubs(hubs)) <==> v in Values(l) || (v in Values(CurrentHubs(hubs)) && used(v))
  {
    hide CurrentHubs, AsDict, DomainHubsReport, DefinitionIn, Changes;
    HubFacts(hubs, l, used, v);
  }

  lemma UnreportedProperties(b: Vocabulary, p: Properties, l: Listing, used: string -> bool, v: string)
    requires !Changes(PropertiesReport(b, p, l, used))
    ensures v in b.builtin + p.names <==> v in b.builtin || v in Values(l) || (v in b.builtin + p.names && used(v))
  {
    hide PropertiesReport, DefinitionIn, Definitions, Keep, Changes;
    PropertyFacts(b, p, l, used, v);
  }

  /** A sync that reports no change would have allowed exactly what is allowed already. */
  lemma UnreportedAllows(b: Builtins, s: Schema, n: Parsed, entries: seq<Entry>, i: Item)
    requires !Changed(b, s, n, entries) && !Silent(n, i)
    ensures Allows(b, s, i) <==> BuiltIn(b, i) || Noted(n, i) || (Allows(b, s, i) && Used(entries, i))
  {
    hide Changed, Changes, TypesReport, ControlledReport, DomainHubsReport, PropertiesReport, DashboardsChanged,
      InUse, HubInUse, PropertyInUse, CurrentTypes, Current, CurrentHubs, HubsOf, Schema.Stored;
    match i
    case TypeItem(v) =>
      OthersUnreported(b, s, n, entries);
      UnreportedTypes(b.types, s.types, n.types, Uses(entries, "type"), v);
    case ValueItem(f, v) =>
      FieldUnreported(b, s, n, entries, f);
      UnreportedValues(b.values(f), s.Stored(f), n.values(f), Uses(entries, Key(f)), v);
    case HubItem(d, v) =>
      DomainUnreported(b, s, n, entries, d);
      UnreportedHubs(HubsOf(s.hubs, d), HubsOf(n.hubs, d), PointsTo(entries), v);
    case PropertyItem(v) =>
      OthersUnreported(b, s, n, entries);
      UnreportedProperties(b.properties, s.properties, n.properties, CarriedBy(entries), v);
  }

  /** The note that the call reads lists the item. */
  predicate Lists(c: Setting, e: Event, i: Item) {
    e.note.Some? && Noted(c.parse(e.note.value), i)
  }

  /** The call leaves the item allowed, if it was: the note lists it or says nothing of its kind, or a
      scanned note uses it. */
  predicate Keeps(c: Setting, e: Event, i: Item) {
    e.note.Some? && (Silent(c.parse(e.note.value), i) || Lists(c, e, i) || Used(e.entries, i))
  }

  /** What a call allows, exactly. One that does not get past the recorded hash, or may not write, changes
      nothing. One that ingests the note allows what is built in or listed, and what was allowed and is
      kept, whether its reports count as a change or not. */
  lemma IngestAllowsExactly(c: Setting, m: Memory, e: Event, i: Item)
    requires SettingOk(c)
    ensures !Ingests(c, m, e) ==> Ingest(c, m, e) == m
    ensures Ingests(c, m, e) ==>
              (Allows(c.builtins, Ingest(c, m, e).schema, i) <==>
                 BuiltIn(c.builtins, i) || Lists(c, e, i) || (Allows(c.builtins, m.schema, i) && Keeps(c, e, i)))
  {
    hide Changed, Sync, Allows, BuiltIn, Noted, Used, ParsedOk, BuiltinsOk;
    if Ingests(c, m, e) {
      var n := c.parse(e.note.value);
      SyncAllowsExactly(c.builtins, m.schema, n, e.entries, i);
      BuiltInAllowed(c.builtins, m.schema, i);
      if Silent(n, i) { SilentLists(n, i); }
      if !Changed(c.builtins, m.schema, n, e.entries) && !Silent(n, i) { UnreportedAllows(c.builtins, m.schema, n, e.entries, i); }
    }
  }

  lemma SilentLists(n: Parsed, i: Item)
    requires Silent(n, i)
    ensures !Noted(n, i)
  {
  }

  lemma BuiltInAllowed(b: Builtins, s: Schema, i: Item)
    ensures BuiltIn(b, i) ==> Allows(b, s, i)
  {
    match i
    case TypeItem(v) =>
      ExtendMember(b.types.builtin, Keep(s.types.names, NonEmpty()), v);
      ExtendMember(Extend(b.types.builtin, Keep(s.types.names, NonEmpty())), Keep(s.types.allowed, NonEmpty()), v);
    case ValueItem(f, v) => ExtendMember(b.values(f).builtin, Keep(s.Stored(f).allowed, NonEmpty()), v);
    case HubItem(_, _) =>
    case PropertyItem(v) =>
  }

  // ---- any history ----

  /** What is kept after a history of calls, between which note and vault may change in any way. */
  function After(c: Setting, m: Memory, h: seq<Event>): Memory {
    if h == [] then m else Ingest(c, After(c, m, h[..|h| - 1]), h[|h| - 1])
  }

  /** The k-th call of the history ingests the note. */
  predicate IngestedAt(c: Setting, m: Memory, h: seq<Event>, k: int) {
    0 <= k < |h| && Ingests(c, After(c, m, h[..k]), h[k])
  }

  /** From call `k` on, every call that ingests the note keeps the item. */
  predicate KeptFrom(c: Setting, m: Memory, h: seq<Event>, i: Item, k: int)
    requires 0 <= k
  {
    forall j | k <= j < |h| && IngestedAt(c, m, h, j) :: Keeps(c, h[j], i)
  }

  lemma IngestedBefore(c: Setting, m: Memory, h: seq<Event>, k: int)
    requires h != []
    ensures k != |h| - 1 ==> IngestedAt(c, m, h, k) == IngestedAt(c, m, h[..|h| - 1], k)
    ensures IngestedAt(c, m, h, |h| - 1) == Ingests(c, After(c, m, h[..|h| - 1]), h[|h| - 1])
  {
    if 0 <= k < |h| - 1 { assert h[..|h| - 1][..k] == h[..k]; }
    hide Ingests, After;
  }

  lemma KeptSnoc(c: Setting, m: Memory, h: seq<Event>, i: Item, k: int)
    requires h != [] && 0 <= k < |h|
    ensures KeptFrom(c, m, h, i, k)
       <==> KeptFrom(c, m, h[..|h| - 1], i, k) && (IngestedAt(c, m, h, |h| - 1) ==> Keeps(c, h[|h| - 1], i))
  {
    var g := h[..|h| - 1];
    forall j: int ensures j != |h| - 1 ==> IngestedAt(c, m, h, j) == IngestedAt(c, m, g, j) { IngestedBefore(c, m, h, j); }
    hide IngestedAt, Keeps;
    if KeptFrom(c, m, h, i, k) {
      forall j | k <= j < |g| && IngestedAt(c, m, g, j) ensures Keeps(c, g[j], i) { assert IngestedAt(c, m, h, j); }
    }
  }

  /** Over any history: what is allowed at the end is what is built in, what was allowed at the start and
      kept by every call that ingested a note, and what one of these notes listed and every later call
      that ingested a note kept. */
  lemma {:induction false} HistoryAllowsExactly(c: Setting, m: Memory, h: seq<Event>, i: Item)
    requires SettingOk(c)
    ensures Allows(c.builtins, After(c, m, h).schema, i)
       <==> (|| BuiltIn(c.builtins, i)
             || (Allows(c.builtins, m.schema, i) && KeptFrom(c, m, h, i, 0))
             || exists k | IngestedAt(c, m, h, k) && Lists(c, h[k], i) :: KeptFrom(c, m, h, i, k + 1))
  {
    BuiltInAllowed(c.builtins, m.schema, i);
    hide SettingOk, Allows, BuiltIn, Ingest, Ingests, Lists, Keeps, KeptFrom, IngestedAt;
    if h == [] {
      NoCalls(c, m, i);
    } else {
      HistoryAllowsExactly(c, m, h[..|h| - 1], i);
      LastCall(c, m, h, i);
      IngestedBefore(c, m, h, |h| - 1);
      IngestAllowsExactly(c, After(c, m, h[..|h| - 1]), h[|h| - 1], i);
      BuiltInAllowed(c.builtins, After(c, m, h[..|h| - 1]).schema, i);
    }
  }

  lemma NoCalls(c: Setting, m: Memory, i: Item)
    ensures KeptFrom(c, m, [], i, 0) && forall k :: !IngestedAt(c, m, [], k)
  {
  }

  lemma LastCall(c: Setting, m: Memory, h: seq<Event>, i: Item)
    requires h != []
    ensures var g, last := h[..|h| - 1], |h| - 1;
            var keeps := IngestedAt(c, m, h, last) ==> Keeps(c, h[last], i);
            && (KeptFrom(c, m, h, i, 0) <==> KeptFrom(c, m, g, i, 0) && keeps)
            && ((exists k | IngestedAt(c, m, h, k) && Lists(c, h[k], i) :: KeptFrom(c, m, h, i, k + 1)) <==>
                  || (IngestedAt(c, m, h, last) && Lists(c, h[last], i))
                  || (keeps && exists k | IngestedAt(c, m, g, k) && Lists(c, g[k], i) :: KeptFrom(c, m, g, i, k + 1)))
  {
    var g, last := h[..|h| - 1], |h| - 1;
    KeptSnoc(c, m, h, i, 0);
    forall k: int
      ensures k != last ==> IngestedAt(c, m, h, k) == IngestedAt(c, m, g, k)
      ensures IngestedAt(c, m, g, k) ==> 0 <= k < last && g[k] == h[k]
                                         && (KeptFrom(c, m, h, i, k + 1) <==>
                                               KeptFrom(c, m, g, i, k + 1) && (IngestedAt(c, m, h, last) ==> Keeps(c, h[last], i)))
    {
      IngestedBefore(c, m, h, k);
      if 0 <= k < last { KeptSnoc(c, m, h, i, k + 1); }
    }
    NothingLater(c, m, h, i);
    hide IngestedAt, Lists, Keeps, KeptFrom;
    if IngestedAt(c, m, h, last) && Lists(c, h[last], i) { assert KeptFrom(c, m, h, i, last + 1); }
  }

  lemma NothingLater(c: Setting, m: Memory, h: seq<Event>, i: Item)
    ensures KeptFrom(c, m, h, i, |h|)
  {
    hide IngestedAt, Keeps;
  }

  // ---- a note whose text stays the same ----

  /** As long as the text is the one last ingested nothing happens, whatever becomes of the vault. */
  lemma {:induction false} SameTextIsIdle(c: Setting, m: Memory, h: seq<Event>)
    requires forall k | 0 <= k < |h| && h[k].note.Some? :: m.recorded == Some(c.digest(h[k].note.value))
    ensures After(c, m, h) == m
  {
    if h != [] {
      SameTextIsIdle(c, m, h[..|h| - 1]);
      assert After(c, m, h) == Ingest(c, m, h[|h| - 1]);
    }
  }

  /** An item that the note does not list and no scanned note uses any more is dropped if and only if the
      text of the note is not the one last ingested. */
  lemma UnusedDroppedIff(c: Setting, m: Memory, e: Event, i: Item)
    requires SettingOk(c) && e.note.Some? && e.write
    requires Allows(c.builtins, m.schema, i) && !BuiltIn(c.builtins, i) && !Keeps(c, e, i)
    ensures !Allows(c.builtins, Ingest(c, m, e).schema, i) <==> m.recorded != Some(c.digest(e.note.value))
  {
    hide SettingOk, Allows, BuiltIn, Ingest;
    IngestAllowsExactly(c, m, e, i);
  }

  // ---- what the next note to be ingested is reported to change ----

  lemma NothingRemoved(s: seq<string>, t: seq<string>, drops: string -> bool)
    requires Keep(t, drops) == [] && forall v | v in s :: v in t
    ensures Keep(s, drops) == []
  {
    forall v | v in s ensures !drops(v) { KeepMember(t, drops, v); }
    KeepNone(s, drops);
  }

  /** When the next text has the same section for a controlled property, and the notes are as they were,
      its reports add and edit nothing, block what was blocked, and remove exactly the built-in values that
      the section leaves out and no note uses: they go on being allowed. */
  lemma NextReport(c: Setting, m: Memory, e: Event, next: Event, f: Field)
    requires SettingOk(c) && Ingests(c, m, e) && Fresh(c, Ingest(c, m, e), next) && next.entries == e.entries
    requires c.parse(next.note.value).values(f) == c.parse(e.note.value).values(f)
    ensures var n := c.parse(e.note.value);
            var first := FieldReport(c.builtins, m.schema, n, e.entries, f);
            var again := FieldReport(c.builtins, Ingest(c, m, e).schema, c.parse(next.note.value), next.entries, f);
            && again.added == [] && again.edited == [] && again.blocked == first.blocked
            && again.removed == Keep(c.builtins.values(f).builtin, Drops(n.values(f), Uses(e.entries, Key(f))))
  {
    var b, n := c.builtins, c.parse(e.note.value);
    var used := Uses(e.entries, Key(f));
    SyncedField(b, m.schema, n, e.entries, f);
    hide BuiltinsOk, ParsedOk, VocabularyOk, ListingOk, Sync, Changed, Keep, Current, ControlledReport, ApplyControlled, Schema.Stored;
    if Changed(b, m.schema, n, e.entries) {
      SecondReport(b.values(f), m.schema.Stored(f), n.values(f), used);
    } else {
      FieldUnreported(b, m.schema, n, e.entries, f);
      QuietReport(b.values(f), m.schema.Stored(f), n.values(f), used);
    }
  }

  lemma QuietReport(b: Vocabulary, p: Property, l: Listing, used: string -> bool)
    requires !Changes(ControlledReport(b, p, l, used))
    ensures ControlledReport(b, p, l, used).removed == Keep(b.builtin, Drops(l, used)) == []
  {
    forall v | v in b.builtin ensures v in Current(b, p) { ExtendMember(b.builtin, Keep(p.allowed, NonEmpty()), v); }
    hide Current, Keep, Definitions;
    NothingRemoved(b.builtin, Current(b, p), Drops(l, used));
  }

  /** The same for note types; reported as edited are exactly the built-in types that the note describes
      differently, because the built-in description goes on winning. */
  lemma NextTypesReport(c: Setting, m: Memory, e: Event, next: Event)
    requires SettingOk(c) && Ingests(c, m, e) && Fresh(c, Ingest(c, m, e), next) && next.entries == e.entries
    requires c.parse(next.note.value).types == c.parse(e.note.value).types
    ensures var b, l, used := c.builtins.types, c.parse(e.note.value).types, Uses(e.entries, "type");
            var first := TypesReport(b, m.schema.types, l, used);
            var again := TypesReport(b, Ingest(c, m, e).schema.types, c.parse(next.note.value).types, used);
            && again.added == [] && again.edited == Keep(Values(l), Overridden(b, l))
            && again.blocked == first.blocked && again.removed == Keep(b.builtin, Drops(l, used))
  {
    var b, n, used := c.builtins, c.parse(e.note.value), Uses(e.entries, "type");
    assert Sync(b, m.schema, n, e.entries).types == ApplyTypes(b.types, m.schema.types, n.types, used);
    assert TypeVocabularyOk(b.types) && ListingOk(n.types);
    hide BuiltinsOk, ParsedOk, TypeVocabularyOk, ListingOk, Sync, Changed, Keep, CurrentTypes, TypesReport, ApplyTypes, Overridden;
    if Changed(b, m.schema, n, e.entries) {
      SecondTypesReport(b.types, m.schema.types, n.types, used);
    } else {
      OthersUnreported(b, m.schema, n, e.entries);
      QuietTypesReport(b.types, m.schema.types, n.types, used);
    }
  }

  lemma QuietTypesReport(b: TypeVocabulary, t: Types, l: Listing, used: string -> bool)
    requires !Changes(TypesReport(b, t, l, used))
    ensures TypesReport(b, t, l, used).removed == Keep(b.builtin, Drops(l, used)) == []
    ensures TypesReport(b, t, l, used).edited == Keep(Values(l), Overridden(b, l)) == []
  {
    forall v | v in b.builtin ensures v in CurrentTypes(b, t) {
      ExtendMember(b.builtin, Keep(t.names, NonEmpty()), v);
      ExtendMember(Extend(b.builtin, Keep(t.names, NonEmpty())), Keep(t.allowed, NonEmpty()), v);
    }
    hide CurrentTypes, Keep, DefinitionIn;
    NothingRemoved(b.builtin, CurrentTypes(b, t), Drops(l, used));
    forall v | v in Values(l) ensures !Overridden(b, l)(v) { KeepMember(Values(l), TypeEdits(b, t, l), v); }
    KeepNone(Values(l), Overridden(b, l));
  }

  // ---- two schemas and notes for which this matters ----

  /** No built-in values; every text parses to the same note, which lists domains only. */
  function DomainsOnly(domains: Listing): Setting {
    Setting(Builtins(TypeVocabulary([], map[]), f => Vocabulary([], map[]), Vocabulary([], map[])),
            text => text,
            text => Parsed([], f => if f == Domain then domains else [], map[], [], {}, []))
  }

  function Robotics(definition: string): Memory {
    Memory(Schema(Types([], map[], []), map[Domain := Property(["robotics"], map["robotics" := definition])], map[],
                  Properties([], {}, map[]), []), None)
  }

  lemma DomainsOnlyOk(domains: Listing)
    requires ListingOk(domains)
    ensures SettingOk(DomainsOnly(domains))
  {
    EmptyListingOk();
    hide ListingOk;
  }

  /** A removal that was blocked and is never retried: the note leaves out the domain while another note
      uses it; the other note is refiled; the same text is synced again. The domain stays allowed, although
      it is not built in, not listed and not used. A text with any other hash would have dropped it. */
  lemma BlockedThenUnused()
    ensures var c, m, i := DomainsOnly([]), Robotics(""), ValueItem(Domain, "robotics");
            var user := Entry(map["domain" := Frontmatter.Scalar("robotics")], map[]);
            var sync, later := Event(Some("note"), [user], true), Event(Some("note"), [], true);
            && Allows(c.builtins, After(c, m, [sync, later]).schema, i)
            && OutcomeOf(c, After(c, m, [sync]), later) == Unchanged
            && !BuiltIn(c.builtins, i) && !Lists(c, later, i) && !Used(later.entries, i)
            && !Allows(c.builtins, Ingest(c, After(c, m, [sync]), later.(note := Some("edited"))).schema, i)
  {
    var c, m, i := DomainsOnly([]), Robotics(""), ValueItem(Domain, "robotics");
    var user := Entry(map["domain" := Frontmatter.Scalar("robotics")], map[]);
    var sync, later := Event(Some("note"), [user], true), Event(Some("note"), [], true);
    EmptyListingOk();
    DomainsOnlyOk([]);
    assert Carries(user.fields, "domain", "robotics") && sync.entries[0] == user;
    assert Used(sync.entries, i);
    RoboticsAllowed("");
    assert [sync][..0] == [] && [sync, later][..1] == [sync];
    hide SettingOk, Allows, Changed, Sync;
    assert After(c, m, [sync]) == Ingest(c, m, sync) && After(c, m, [sync, later]) == Ingest(c, Ingest(c, m, sync), later);
    IngestAllowsExactly(c, m, sync, i);
    var edited := later.(note := Some("edited"));
    UnusedDroppedIff(c, Ingest(c, m, sync), edited, i);
  }

  lemma RoboticsAllowed(definition: string)
    ensures Current(Vocabulary([], map[]), Robotics(definition).schema.Stored(Domain)) == ["robotics"]
    ensures Allows(DomainsOnly([]).builtins, Robotics(definition).schema, ValueItem(Domain, "robotics"))
  {
    assert Keep(["robotics"], NonEmpty()) == ["robotics"] by { assert ["robotics"][1..] == []; }
    assert ["robotics"][..0] == [];
  }

  lemma NothingToReport(b: Vocabulary, t: TypeVocabulary, used: string -> bool)
    requires b == Vocabulary([], map[]) && t == TypeVocabulary([], map[])
    ensures !Changes(ControlledReport(b, Property([], map[]), [], used)) && !Changes(TypesReport(t, Types([], map[], []), [], used))
  {
  }

  lemma ClearedQuietly(definition: string, used: string -> bool)
    ensures !Changes(ControlledReport(Vocabulary([], map[]), Robotics(definition).schema.Stored(Domain), [("robotics", "")], used))
    ensures DefinitionIn([("robotics", "")], "robotics") == ""
  {
    var b, p, l := Vocabulary([], map[]), Robotics(definition).schema.Stored(Domain), [("robotics", "")];
    RoboticsAllowed(definition);
    assert Values(l) == ["robotics"] && Strip("") == "";
    hide Current, Definitions, Strip;
    KeepNone(Values(l), NotIn(Current(b, p)));
    KeepNone(Values(l), Edits(b, p, l));
    KeepNone(Current(b, p), Drops(l, used));
  }

  /** An edit that is lost: the note lists the domain without the definition the schema stores. Nothing is
      reported, the schema is not written, and the hash is recorded, so the text is not parsed again. */
  lemma ClearedDefinitionLost()
    ensures var c, m := DomainsOnly([("robotics", "")]), Robotics("Robots");
            var e := Event(Some("note"), [], true);
            && OutcomeOf(c, m, e) == Ingested(false)
            && After(c, m, [e, e]).schema == m.schema
            && !SameMeaning(c.builtins, m.schema, Sync(c.builtins, m.schema, c.parse("note"), e.entries))
  {
    var c, m := DomainsOnly([("robotics", "")]), Robotics("Robots");
    var e := Event(Some("note"), [], true);
    assert Fresh(c, m, e);
    ClearsRobotics();
    LostUnreported(c.builtins, m.schema, c.parse("note"), e.entries);
    hide Changed, Sync, SameMeaning, EditsSilently, BuiltinsOk, ParsedOk, After, Robotics, DomainsOnly;
    UnreportedSyncIff(c.builtins, m.schema, c.parse("note"), e.entries);
    CalledTwice(c, m, e);
  }

  /** Calling again at once changes nothing. */
  lemma CalledTwice(c: Setting, m: Memory, e: Event)
    ensures After(c, m, [e, e]) == Ingest(c, m, e)
  {
    hide Sync, Changed;
    assert [e, e][..1] == [e] && [e][..0] == [];
    assert After(c, m, [e]) == Ingest(c, m, e);
  }

  lemma StoredText(definition: string)
    requires Strip(definition) != ""
    ensures TextOf(Definitions(Vocabulary([], map[]), Robotics(definition).schema.Stored(Domain).definitions), "robotics") != ""
  {
    hide Strip;
  }

  lemma RobotsIsText()
    ensures Strip("Robots") != ""
  {
    assert Strip("Robots") == "Robots";
  }

  lemma DomainsListed(domains: Listing)
    ensures var c := DomainsOnly(domains);
            && c.parse("note").values(Domain) == domains
            && c.builtins.values(Domain) == Vocabulary([], map[]) && c.builtins.types.specs == map[]
  {
  }

  lemma SettingParts(c: Setting, text: string)
    requires SettingOk(c)
    ensures BuiltinsOk(c.builtins) && ParsedOk(c.parse(text))
  {
    hide BuiltinsOk, ParsedOk;
  }

  lemma ClearsRobotics()
    ensures var c, s := DomainsOnly([("robotics", "")]), Robotics("Robots").schema;
            && BuiltinsOk(c.builtins) && ParsedOk(c.parse("note")) && EditsSilently(c.builtins, s, c.parse("note"))
            && c.builtins.types.specs == map[]
  {
    var c, s := DomainsOnly([("robotics", "")]), Robotics("Robots").schema;
    assert Values([("robotics", "")]) == ["robotics"];
    DomainsOnlyOk([("robotics", "")]);
    DomainsListed([("robotics", "")]);
    ClearedQuietly("Robots", Uses([], "domain"));
    RobotsIsText();
    StoredText("Robots");
    hide SettingOk, BuiltinsOk, ParsedOk, Strip, DefinitionIn, DomainsOnly, Robotics, Definitions, Values, Uses;
    SettingParts(c, "note");
    assert ClearsValue(c.builtins.values(Domain), s.Stored(Domain), c.parse("note").values(Domain), "robotics") by {
      assert TextOf(map[], "robotics") == "";
    }
  }

  lemma LostUnreported(b: Builtins, s: Schema, n: Parsed, entries: seq<Entry>)
    requires b == DomainsOnly([("robotics", "")]).builtins && s == Robotics("Robots").schema && entries == []
    requires n == DomainsOnly([("robotics", "")]).parse("note")
    ensures !Changed(b, s, n, entries)
  {
    ClearedQuietly("Robots", Uses(entries, Key(Domain)));
    NothingToReport(Vocabulary([], map[]), b.types, Uses(entries, "type"));
    hide ControlledReport, TypesReport, DomainHubsReport, Changes, Key, Uses;
    forall f: Field ensures !Changes(FieldReport(b, s, n, entries, f)) {
      if f != Domain { NothingToReport(Vocabulary([], map[]), b.types, Uses(entries, Key(f))); }
    }
    assert !Changes(NOTHING) by { NoReport(); }
  }

  lemma NoReport()
    ensures !Changes(NOTHING)
  {
  }
}
