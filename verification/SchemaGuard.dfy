/** What a sync that reports no change would have changed all the same: edits that are never stored. */
module SchemaGuard {
  import opened Text
  import opened SchemaSync
  import opened SchemaTerms

  // ---- what a schema means to its readers ----

  ghost predicate SameTypes(b: TypeVocabulary, t: Types, u: Types) {
    forall v: string ::
      && (v in CurrentTypes(b, t) <==> v in CurrentTypes(b, u))
      && (v in CurrentTypes(b, t) ==> TypeDefinition(b, t, v) == TypeDefinition(b, u, v))
  }

  ghost predicate SameValues(b: Vocabulary, p: Property, q: Property) {
    forall v: string ::
      && (v in Current(b, p) <==> v in Current(b, q))
      && (v in Current(b, p) ==> TextOf(Definitions(b, p.definitions), v) == TextOf(Definitions(b, q.definitions), v))
  }

  ghost predicate SameHubs(h: Listing, i: Listing) {
    forall v: string ::
      (v in Values(CurrentHubs(h)) <==> v in Values(CurrentHubs(i))) && DefinitionIn(CurrentHubs(h), v) == DefinitionIn(CurrentHubs(i), v)
  }

  ghost predicate SameProperties(b: Vocabulary, p: Properties, q: Properties) {
    forall v: string ::
      && (v in b.builtin + p.names <==> v in b.builtin + q.names)
      && (v in p.names ==> (v in p.lists <==> v in q.lists))
      && (v in b.builtin + p.names ==> TextOf(Definitions(b, p.definitions), v) == TextOf(Definitions(b, q.definitions), v))
  }

  /** The same values, hubs and properties are allowed, with the same definitions and list marks. */
  ghost predicate SameMeaning(b: Builtins, s: Schema, t: Schema) {
    && SameTypes(b.types, s.types, t.types)
    && (forall f: Field :: SameValues(b.values(f), s.Stored(f), t.Stored(f)))
    && (forall d: string :: SameHubs(HubsOf(s.hubs, d), HubsOf(t.hubs, d)))
    && SameProperties(b.properties, s.properties, t.properties)
    && !DashboardsChanged(s.dashboards, t.dashboards)
  }

  // ---- the edits that go unreported ----

  /** The note lists a value without the definition that the schema stores for it. */
  predicate ClearsValue(b: Vocabulary, p: Property, l: Listing, v: string) {
    && v in Values(l) && DefinitionIn(l, v) == ""
    && TextOf(Definitions(b, p.definitions), v) != TextOf(b.definitions, v)
  }

  /** The note lists a hub without its description. */
  predicate ClearsHub(hubs: Listing, l: Listing, v: string) {
    v in Values(l) && DefinitionIn(AsDict(l), v) == "" && DefinitionIn(CurrentHubs(hubs), v) != ""
  }

  /** The note marks a custom property as a list, or no longer as one. */
  predicate Retypes(p: Properties, l: Listing, lists: set<string>, v: string) {
    v in p.names && v in Values(l) && (v in lists) != (v in p.lists)
  }

  /** The note lists a property without its definition, or leaves out a built-in property, although the
      schema stores a definition of its own for it. */
  predicate ClearsProperty(b: Vocabulary, p: Properties, l: Listing, v: string) {
    && v in b.builtin + p.names && (if v in Values(l) then DefinitionIn(l, v) == "" else v !in p.names)
    && TextOf(Definitions(b, p.definitions), v) != TextOf(b.definitions, v)
  }

  /** Some edit of the note is one that no report mentions. */
  ghost predicate EditsSilently(b: Builtins, s: Schema, n: Parsed) {
    || (exists f: Field, v :: ClearsValue(b.values(f), s.Stored(f), n.values(f), v))
    || (exists d, v :: ClearsHub(HubsOf(s.hubs, d), HubsOf(n.hubs, d), v))
    || (n.properties != []
        && exists v :: Retypes(s.properties, n.properties, n.lists, v) || ClearsProperty(b.properties, s.properties, n.properties, v))
  }

  // ---- section by section ----

  lemma Unreported(s: seq<string>, keep: string -> bool, v: string)
    requires Keep(s, keep) == []
    ensures v in s ==> !keep(v)
  {
    KeepMember(s, keep, v);
  }

  /** The text `_apply_controlled` and `_apply_properties` compare a definition with. */
  function Compared(defs: map<string, string>, v: string): string {
    if v in defs then Strip(defs[v]) else ""
  }

  lemma ComparedIsText(b: Vocabulary, stored: map<string, string>, v: string)
    requires VocabularyOk(b)
    ensures Compared(Definitions(b, stored), v) == TextOf(Definitions(b, stored), v)
  {
    MergedTrimmed(b, stored);
    if v in Definitions(b, stored) { StripTrimmed(Definitions(b, stored)[v]); }
    hide Strip, Trimmed;
  }

  lemma TextStays(b: Vocabulary, stored: map<string, string>, v: string)
    requires VocabularyOk(b)
    ensures TextOf(Definitions(b, stored), v) == "" ==> TextOf(b.definitions, v) == ""
  {
    hide Strip;
    assert v in stored && Strip(stored[v]) != "" ==> Definitions(b, stored)[v] == Strip(stored[v]);
  }

  lemma NoteFacts(b: Vocabulary, p: Property, l: Listing, used: string -> bool, v: string)
    requires !Changes(ControlledReport(b, p, l, used))
    ensures v in Values(l) ==> v in Current(b, p)
    ensures v in Values(l) && DefinitionIn(l, v) != "" ==> DefinitionIn(l, v) == Compared(Definitions(b, p.definitions), v)
    ensures v in Current(b, p) && v !in Values(l) ==> v in Keep(Current(b, p), Blocks(l, used))
  {
    Unreported(Values(l), NotIn(Current(b, p)), v);
    Unreported(Values(l), Edits(b, p, l), v);
    Unreported(Current(b, p), Drops(l, used), v);
    KeepMember(Current(b, p), Blocks(l, used), v);
    hide Keep, Definitions, Current, DefinitionIn, Strip;
  }

  lemma ValuesMeaning(b: Vocabulary, p: Property, l: Listing, used: string -> bool, v: string)
    requires VocabularyOk(b) && ListingOk(l) && !Changes(ControlledReport(b, p, l, used))
    ensures var q := ApplyControlled(b, p, l, used);
            && (v in Current(b, p) <==> v in Current(b, q))
            && (v in Current(b, p) ==>
                  (TextOf(Definitions(b, p.definitions), v) == TextOf(Definitions(b, q.definitions), v) <==> !ClearsValue(b, p, l, v)))
            && (ClearsValue(b, p, l, v) ==> v in Current(b, p))
  {
    var blocked := Keep(Current(b, p), Blocks(l, used));
    assert ApplyControlled(b, p, l, used).definitions == KeptDefinitions(Definitions(b, p.definitions), blocked, l);
    hide Current, Keep, Definitions, KeptDefinitions, ApplyControlled, ControlledReport, DefinitionIn, TextOf, Compared;
    EffectiveValues(b, p, l, used, v);
    NoteFacts(b, p, l, used, v);
    BlockedCurrent(b, p, l, used, v);
    ComparedIsText(b, p.definitions, v);
    TextStays(b, p.definitions, v);
    KeptText(b, p.definitions, blocked, l, v);
  }

  lemma BlockedCurrent(b: Vocabulary, p: Property, l: Listing, used: string -> bool, v: string)
    ensures v in b.builtin ==> v in Current(b, p)
    ensures v in Keep(Current(b, p), Blocks(l, used)) ==> v in Current(b, p) && v !in Values(l)
  {
    ExtendMember(b.builtin, Keep(p.allowed, NonEmpty()), v);
    KeepMember(Current(b, p), Blocks(l, used), v);
  }

  /** The effective text of a value after the definitions have been kept. */
  lemma KeptText(b: Vocabulary, stored: map<string, string>, blocked: seq<string>, l: Listing, v: string)
    requires VocabularyOk(b)
    ensures TextOf(Definitions(b, KeptDefinitions(Definitions(b, stored), blocked, l)), v)
         == (if v in Values(l) && DefinitionIn(l, v) != "" then DefinitionIn(l, v)
             else if v in blocked && TextOf(Definitions(b, stored), v) != "" then TextOf(Definitions(b, stored), v)
             else TextOf(b.definitions, v))
  {
    var defs := Definitions(b, stored);
    MergedTrimmed(b, stored);
    DefinitionTrimmed(l, v);
    if v in defs { StripTrimmed(defs[v]); }
    StripTrimmed(DefinitionIn(l, v));
    hide Strip, Trimmed, DefinitionIn;
  }

  lemma TypeFacts(b: TypeVocabulary, t: Types, l: Listing, used: string -> bool, v: string)
    requires !Changes(TypesReport(b, t, l, used))
    ensures v in Values(l) ==> v in CurrentTypes(b, t)
    ensures v in Values(l) && DefinitionIn(l, v) != "" ==> DefinitionIn(l, v) == TypeDefinition(b, t, v)
    ensures v in CurrentTypes(b, t) && v !in Values(l) ==> v in BlockedTypes(b, t, l, used)
    ensures v in BlockedTypes(b, t, l, used) ==> v in CurrentTypes(b, t)
    ensures v in b.builtin ==> v in CurrentTypes(b, t)
  {
    Unreported(Values(l), NotIn(CurrentTypes(b, t)), v);
    Unreported(Values(l), TypeEdits(b, t, l), v);
    Unreported(CurrentTypes(b, t), Drops(l, used), v);
    KeepMember(CurrentTypes(b, t), Blocks(l, used), v);
    ExtendMember(b.builtin, Keep(t.names, NonEmpty()), v);
    ExtendMember(Extend(b.builtin, Keep(t.names, NonEmpty())), Keep(t.allowed, NonEmpty()), v);
    hide Keep, Extend, TypeDefinition, DefinitionIn;
  }

  /** A new specification describes its type as before, unless the note describes it. */
  lemma SpecDescribes(b: TypeVocabulary, t: Types, l: Listing, v: string)
    requires v !in b.builtin && v !in b.specs
    ensures Described(NewSpec(b, t, l, v)) == if DefinitionIn(l, v) != "" then DefinitionIn(l, v) else TypeDefinition(b, t, v)
  {
    DefinitionTrimmed(l, v);
    StripTrimmed(DefinitionIn(l, v));
    StripTrimmed("");
    hide Strip, Trimmed, DefinitionIn;
  }

  lemma TypesMeaning(b: TypeVocabulary, t: Types, l: Listing, used: string -> bool, v: string)
    requires TypeVocabularyOk(b) && ListingOk(l) && !Changes(TypesReport(b, t, l, used))
    requires forall name | name in b.specs :: name in b.builtin
    ensures var u := ApplyTypes(b, t, l, used);
            && (v in CurrentTypes(b, t) <==> v in CurrentTypes(b, u))
            && (v in CurrentTypes(b, t) ==> TypeDefinition(b, t, v) == TypeDefinition(b, u, v))
  {
    TypeFacts(b, t, l, used, v);
    EffectiveTypes(b, t, l, used, v);
    assert TypesReport(b, t, l, used).blocked == BlockedTypes(b, t, l, used);
    hide CurrentTypes, BlockedTypes, NewSpec, TypesReport, DefinitionIn, TypeVocabularyOk;
    if v in CurrentTypes(b, t) && v !in b.builtin {
      SpecDescribes(b, t, l, v);
      if v !in Values(l) { DefinitionAbsent(l, v); }
    }
  }

  // ---- hubs ----

  lemma {:induction false} DefinitionConcat(a: Listing, c: Listing, v: string)
    ensures DefinitionIn(a + c, v) == if v in Values(a) then DefinitionIn(a, v) else DefinitionIn(c, v)
  {
    hide Strip;
    if a == [] {
      assert a + c == c;
    } else {
      assert (a + c)[0] == a[0] && (a + c)[1..] == a[1..] + c;
      assert Values(a)[0] == a[0].0 && Values(a)[1..] == Values(a[1..]);
      DefinitionConcat(a[1..], c, v);
    }
  }

  lemma {:induction false} DefinitionStripped(l: Listing, v: string)
    ensures DefinitionIn(Stripped(l), v) == DefinitionIn(l, v)
  {
    if l != [] {
      StripIsTrimmed(l[0].1);
      StripTrimmed(Strip(l[0].1));
      hide Strip;
      assert Stripped(l)[1..] == Stripped(l[1..]);
      DefinitionStripped(l[1..], v);
    }
  }

  lemma {:induction false} DefinitionKept(l: Listing, keep: string -> bool, v: string)
    ensures DefinitionIn(KeepHubs(l, keep), v) == if keep(v) then DefinitionIn(l, v) else ""
  {
    hide Strip;
    if l != [] {
      DefinitionKept(l[1..], keep, v);
      if keep(l[0].0) {
        assert KeepHubs(l, keep)[1..] == KeepHubs(l[1..], keep);
      } else {
        assert [] + KeepHubs(l[1..], keep) == KeepHubs(l[1..], keep);
      }
    }
  }

  lemma HubFacts(hubs: Listing, l: Listing, used: string -> bool, v: string)
    requires !Changes(DomainHubsReport(hubs, l, used))
    ensures var cur, d := CurrentHubs(hubs), AsDict(l);
            && (v in Values(d) ==> v in Values(cur))
            && (v in Values(d) && DefinitionIn(d, v) != "" ==> DefinitionIn(d, v) == DefinitionIn(cur, v))
            && (v in Values(cur) && v !in Values(d) ==> used(v))
            && (v in Values(d) <==> v in Values(l))
  {
    var cur, d := CurrentHubs(hubs), AsDict(l);
    Unreported(Values(d), NotIn(Values(cur)), v);
    Unreported(Values(d), HubEdits(cur, d), v);
    Unreported(Values(cur), Drops(d, used), v);
    AsDictDistinct(l);
    hide Keep, DefinitionIn, CurrentHubs, AsDict;
  }

  lemma HubTexts(hubs: Listing, l: Listing, used: string -> bool, v: string)
    requires HubListOk(l)
    ensures DefinitionIn(CurrentHubs(ApplyDomainHubs(hubs, l, used)), v)
         == (if v in Values(AsDict(l)) then DefinitionIn(AsDict(l), v)
             else if used(v) then DefinitionIn(CurrentHubs(hubs), v) else "")
  {
    var d, after := AsDict(l), ApplyDomainHubs(hubs, l, used);
    var blocks := Blocks(d, used);
    assert after == d + KeepHubs(CurrentHubs(hubs), blocks) && blocks(v) == (v !in Values(d) && used(v));
    hide *;
    HubsDistinct(hubs, l, used);
    HubsReadBack(after);
    DefinitionStripped(after, v);
    DefinitionConcat(d, KeepHubs(CurrentHubs(hubs), blocks), v);
    DefinitionKept(CurrentHubs(hubs), blocks, v);
  }

  lemma HubsMeaning(hubs: Listing, l: Listing, used: string -> bool, v: string)
    requires HubListOk(l) && !Changes(DomainHubsReport(hubs, l, used))
    ensures var after := ApplyDomainHubs(hubs, l, used);
            && (v in Values(CurrentHubs(hubs)) <==> v in Values(CurrentHubs(after)))
            && (DefinitionIn(CurrentHubs(hubs), v) == DefinitionIn(CurrentHubs(after), v) <==> !ClearsHub(hubs, l, v))
  {
    HubFacts(hubs, l, used, v);
    EffectiveHubs(hubs, l, used, v);
    HubTexts(hubs, l, used, v);
    if v !in Values(CurrentHubs(hubs)) { DefinitionAbsent(CurrentHubs(hubs), v); }
    hide CurrentHubs, AsDict, ApplyDomainHubs, DefinitionIn, DomainHubsReport, HubListOk;
  }

  lemma RegistryOf(registry: map<string, Listing>, noted: map<string, Listing>, used: string -> bool, d: string)
    ensures HubsOf(ApplyHubs(registry, noted, used), d) == ApplyDomainHubs(HubsOf(registry, d), HubsOf(noted, d), used)
  {
    NoHubsEither([], used);
    hide ApplyDomainHubs;
  }

  // ---- properties ----

  lemma PropertyFacts(b: Vocabulary, p: Properties, l: Listing, used: string -> bool, v: string)
    requires !Changes(PropertiesReport(b, p, l, used))
    ensures v in Values(l) ==> v in b.builtin + p.names
    ensures v in Values(l) && DefinitionIn(l, v) != "" ==> DefinitionIn(l, v) == Compared(Definitions(b, p.definitions), v)
    ensures v in p.names && v !in Values(l) ==> used(v)
    ensures v in Keep(p.names, Blocks(l, used)) <==> v in p.names && v !in Values(l) && used(v)
  {
    Unreported(Values(l), NotIn(b.builtin + p.names), v);
    Unreported(Values(l), PropertyEdits(b, p, l), v);
    Unreported(p.names, Drops(l, used), v);
    KeepMember(p.names, Blocks(l, used), v);
    hide Keep, Definitions, DefinitionIn, Strip;
  }

  lemma PropertiesMeaning(b: Vocabulary, p: Properties, l: Listing, lists: set<string>, used: string -> bool, v: string)
    requires VocabularyOk(b) && ListingOk(l) && !Changes(PropertiesReport(b, p, l, used))
    ensures var q := ApplyProperties(b, p, l, lists, used);
            && (v in b.builtin + p.names <==> v in b.builtin + q.names)
            && (v in p.names ==> ((v in p.lists <==> v in q.lists) <==> !Retypes(p, l, lists, v)))
            && (v in b.builtin + p.names ==>
                  (TextOf(Definitions(b, p.definitions), v) == TextOf(Definitions(b, q.definitions), v) <==> !ClearsProperty(b, p, l, v)))
  {
    var blocked := Keep(p.names, Blocks(l, used));
    assert ApplyProperties(b, p, l, lists, used).definitions == KeptDefinitions(Definitions(b, p.definitions), blocked, l);
    PropertyNames(b, p, l, lists, used, v);
    assert v in ApplyProperties(b, p, l, lists, used).lists <==>
             v in ApplyProperties(b, p, l, lists, used).names && (if v in Values(l) then v in lists else v in p.lists);
    hide Keep, Definitions, KeptDefinitions, ApplyProperties, PropertiesReport, DefinitionIn, TextOf, Compared;
    EffectiveProperties(b, p, l, lists, used, v);
    PropertyFacts(b, p, l, used, v);
    ComparedIsText(b, p.definitions, v);
    TextStays(b, p.definitions, v);
    KeptText(b, p.definitions, blocked, l, v);
  }

  // ---- the whole note ----

  lemma FieldUnreported(b: Builtins, s: Schema, n: Parsed, entries: seq<Entry>, f: Field)
    requires !Changed(b, s, n, entries)
    ensures !Changes(ControlledReport(b.values(f), s.Stored(f), n.values(f), Uses(entries, Key(f))))
  {
    hide TypesReport, ControlledReport, DomainHubsReport, PropertiesReported, Changes;
    assert !Changes(FieldReport(b, s, n, entries, f));
  }

  lemma DomainUnreported(b: Builtins, s: Schema, n: Parsed, entries: seq<Entry>, d: string)
    requires !Changed(b, s, n, entries)
    ensures !Changes(DomainHubsReport(HubsOf(s.hubs, d), HubsOf(n.hubs, d), PointsTo(entries)))
  {
    hide TypesReport, FieldReport, PropertiesReported;
    if d !in s.hubs.Keys + n.hubs.Keys {
      assert CurrentHubs([]) == [] && AsDict([]) == [];
    } else {
      hide DomainHubsReport, Changes;
    }
  }

  lemma OthersUnreported(b: Builtins, s: Schema, n: Parsed, entries: seq<Entry>)
    requires !Changed(b, s, n, entries)
    ensures !Changes(TypesReport(b.types, s.types, n.types, Uses(entries, "type")))
    ensures !Changes(PropertiesReported(b, s, n, entries)) && !DashboardsChanged(s.dashboards, n.dashboards)
  {
    hide TypesReport, FieldReport, PropertiesReported, DomainHubsReport, Changes, DashboardsChanged;
  }

  lemma TypesKept(b: Builtins, s: Schema, n: Parsed, entries: seq<Entry>)
    requires BuiltinsOk(b) && ParsedOk(n) && !Changed(b, s, n, entries)
    requires forall name | name in b.types.specs :: name in b.types.builtin
    ensures SameTypes(b.types, s.types, Sync(b, s, n, entries).types)
  {
    OthersUnreported(b, s, n, entries);
    assert Sync(b, s, n, entries).types == ApplyTypes(b.types, s.types, n.types, Uses(entries, "type"));
    hide CurrentTypes, TypeDefinition, ApplyTypes, Sync, Changed, TypesReport, TypeVocabularyOk, VocabularyOk, ListingOk, HubListOk;
    forall v: string
      ensures var t, u := s.types, Sync(b, s, n, entries).types;
              && (v in CurrentTypes(b.types, t) <==> v in CurrentTypes(b.types, u))
              && (v in CurrentTypes(b.types, t) ==> TypeDefinition(b.types, t, v) == TypeDefinition(b.types, u, v))
    {
      TypesMeaning(b.types, s.types, n.types, Uses(entries, "type"), v);
    }
  }

  lemma ValuesSameIff(b: Vocabulary, p: Property, l: Listing, used: string -> bool)
    requires VocabularyOk(b) && ListingOk(l) && !Changes(ControlledReport(b, p, l, used))
    ensures SameValues(b, p, ApplyControlled(b, p, l, used)) <==> forall v :: !ClearsValue(b, p, l, v)
  {
    var q := ApplyControlled(b, p, l, used);
    hide Current, Definitions, TextOf, ApplyControlled, ControlledReport, ClearsValue, VocabularyOk, ListingOk;
    forall v: string
      ensures v in Current(b, p) <==> v in Current(b, q)
      ensures v in Current(b, p) ==>
                (TextOf(Definitions(b, p.definitions), v) == TextOf(Definitions(b, q.definitions), v) <==> !ClearsValue(b, p, l, v))
      ensures ClearsValue(b, p, l, v) ==> v in Current(b, p)
    {
      ValuesMeaning(b, p, l, used, v);
    }
  }

  lemma SyncedField(b: Builtins, s: Schema, n: Parsed, entries: seq<Entry>, f: Field)
    requires BuiltinsOk(b) && ParsedOk(n)
    ensures Sync(b, s, n, entries).Stored(f) == ApplyControlled(b.values(f), s.Stored(f), n.values(f), Uses(entries, Key(f)))
    ensures VocabularyOk(b.values(f)) && ListingOk(n.values(f))
  {
    hide ApplyTypes, ApplyControlled, ApplyHubs, ApplyProperties, VocabularyOk, ListingOk, HubListOk, TypeVocabularyOk, Key;
  }

  lemma ValuesKeptIff(b: Builtins, s: Schema, n: Parsed, entries: seq<Entry>, f: Field)
    requires BuiltinsOk(b) && ParsedOk(n) && !Changed(b, s, n, entries)
    ensures SameValues(b.values(f), s.Stored(f), Sync(b, s, n, entries).Stored(f))
       <==> forall v :: !ClearsValue(b.values(f), s.Stored(f), n.values(f), v)
  {
    hide *;
    FieldUnreported(b, s, n, entries, f);
    SyncedField(b, s, n, entries, f);
    ValuesSameIff(b.values(f), s.Stored(f), n.values(f), Uses(entries, Key(f)));
  }

  lemma HubsSameIff(h: Listing, l: Listing, used: string -> bool)
    requires HubListOk(l) && !Changes(DomainHubsReport(h, l, used))
    ensures SameHubs(h, ApplyDomainHubs(h, l, used)) <==> forall v :: !ClearsHub(h, l, v)
  {
    var after := ApplyDomainHubs(h, l, used);
    hide CurrentHubs, DefinitionIn, ApplyDomainHubs, DomainHubsReport, ClearsHub, HubListOk;
    forall v: string
      ensures v in Values(CurrentHubs(h)) <==> v in Values(CurrentHubs(after))
      ensures DefinitionIn(CurrentHubs(h), v) == DefinitionIn(CurrentHubs(after), v) <==> !ClearsHub(h, l, v)
    {
      HubsMeaning(h, l, used, v);
    }
  }

  lemma SyncedHubs(b: Builtins, s: Schema, n: Parsed, entries: seq<Entry>, d: string)
    requires BuiltinsOk(b) && ParsedOk(n)
    ensures HubsOf(Sync(b, s, n, entries).hubs, d) == ApplyDomainHubs(HubsOf(s.hubs, d), HubsOf(n.hubs, d), PointsTo(entries))
    ensures HubListOk(HubsOf(n.hubs, d))
  {
    RegistryOf(s.hubs, n.hubs, PointsTo(entries), d);
    NoHubsOk();
    hide ApplyTypes, ApplyControlled, ApplyHubs, ApplyDomainHubs, ApplyProperties, VocabularyOk, ListingOk, HubListOk, TypeVocabularyOk;
  }

  lemma HubsKeptIff(b: Builtins, s: Schema, n: Parsed, entries: seq<Entry>, d: string)
    requires BuiltinsOk(b) && ParsedOk(n) && !Changed(b, s, n, entries)
    ensures SameHubs(HubsOf(s.hubs, d), HubsOf(Sync(b, s, n, entries).hubs, d))
       <==> forall v :: !ClearsHub(HubsOf(s.hubs, d), HubsOf(n.hubs, d), v)
  {
    hide *;
    DomainUnreported(b, s, n, entries, d);
    SyncedHubs(b, s, n, entries, d);
    HubsSameIff(HubsOf(s.hubs, d), HubsOf(n.hubs, d), PointsTo(entries));
  }

  lemma PropertiesKeptIff(b: Builtins, s: Schema, n: Parsed, entries: seq<Entry>)
    requires BuiltinsOk(b) && ParsedOk(n) && !Changed(b, s, n, entries) && n.properties != []
    ensures SameProperties(b.properties, s.properties, Sync(b, s, n, entries).properties)
       <==> forall v :: !Retypes(s.properties, n.properties, n.lists, v) && !ClearsProperty(b.properties, s.properties, n.properties, v)
  {
    OthersUnreported(b, s, n, entries);
    var p, l := s.properties, n.properties;
    var q := ApplyProperties(b.properties, p, l, n.lists, CarriedBy(entries));
    assert Sync(b, s, n, entries).properties == q;
    hide Definitions, TextOf, ApplyProperties, Sync, Changed, PropertiesReport, TypeVocabularyOk, VocabularyOk, ListingOk, HubListOk;
    forall v: string
      ensures v in b.properties.builtin + p.names <==> v in b.properties.builtin + q.names
      ensures v in p.names ==> ((v in p.lists <==> v in q.lists) <==> !Retypes(p, l, n.lists, v))
      ensures v in b.properties.builtin + p.names ==>
                (TextOf(Definitions(b.properties, p.definitions), v) == TextOf(Definitions(b.properties, q.definitions), v)
                 <==> !ClearsProperty(b.properties, p, l, v))
    {
      PropertiesMeaning(b.properties, p, l, n.lists, CarriedBy(entries), v);
    }
  }

  /** When a sync reports no change the schema is not written. The schema it has computed then means the
      same as the stored one if and only if the note makes no silent edit: it clears no definition of a
      value, hub or property, leaves out no redefined built-in property, and changes no list mark. */
  lemma UnreportedSyncIff(b: Builtins, s: Schema, n: Parsed, entries: seq<Entry>)
    requires BuiltinsOk(b) && ParsedOk(n) && !Changed(b, s, n, entries)
    requires forall name | name in b.types.specs :: name in b.types.builtin
    ensures SameMeaning(b, s, Sync(b, s, n, entries)) <==> !EditsSilently(b, s, n)
  {
    var t := Sync(b, s, n, entries);
    OthersUnreported(b, s, n, entries);
    assert t.dashboards == n.dashboards && (n.properties == [] ==> t.properties == s.properties);
    hide *;
    TypesKept(b, s, n, entries);
    MeaningIs(b, s, t);
    SilentlyIs(b, s, n);
    SamePropertiesSelf(b.properties, s.properties);
    forall f: Field
      ensures SameValues(b.values(f), s.Stored(f), t.Stored(f)) <==> forall v :: !ClearsValue(b.values(f), s.Stored(f), n.values(f), v)
    {
      ValuesKeptIff(b, s, n, entries, f);
    }
    forall d: string
      ensures SameHubs(HubsOf(s.hubs, d), HubsOf(t.hubs, d)) <==> forall v :: !ClearsHub(HubsOf(s.hubs, d), HubsOf(n.hubs, d), v)
    {
      HubsKeptIff(b, s, n, entries, d);
    }
    if n.properties != [] { PropertiesKeptIff(b, s, n, entries); }
  }

  lemma SamePropertiesSelf(b: Vocabulary, p: Properties)
    ensures SameProperties(b, p, p)
  {
    hide Definitions, TextOf;
  }

  lemma MeaningIs(b: Builtins, s: Schema, t: Schema)
    ensures SameMeaning(b, s, t)
       <==> (&& SameTypes(b.types, s.types, t.types)
             && (forall f: Field :: SameValues(b.values(f), s.Stored(f), t.Stored(f)))
             && (forall d: string :: SameHubs(HubsOf(s.hubs, d), HubsOf(t.hubs, d)))
             && SameProperties(b.properties, s.properties, t.properties)
             && !DashboardsChanged(s.dashboards, t.dashboards))
  {
    hide SameTypes, SameValues, SameHubs, SameProperties, DashboardsChanged, Schema.Stored;
  }

  lemma SilentlyIs(b: Builtins, s: Schema, n: Parsed)
    ensures EditsSilently(b, s, n)
       <==> (|| (exists f: Field, v :: ClearsValue(b.values(f), s.Stored(f), n.values(f), v))
             || (exists d, v :: ClearsHub(HubsOf(s.hubs, d), HubsOf(n.hubs, d), v))
             || (n.properties != []
                 && exists v :: Retypes(s.properties, n.properties, n.lists, v) || ClearsProperty(b.properties, s.properties, n.properties, v)))
  {
    hide ClearsValue, ClearsHub, Retypes, ClearsProperty, Schema.Stored;
  }
}
