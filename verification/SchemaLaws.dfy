/** What a sync of the schema note keeps, drops and reports, in terms of what the notes of the vault say. */
module SchemaLaws {
  import opened Text
  import opened Frontmatter
  import opened SchemaTerms
  import opened SchemaSync
  import opened SchemaGuard

  // ---- what the notes say ----

  /** A text, or a list with that text among its items. */
  predicate Says(value: Value, text: string) {
    value == Scalar(text) || (value.List? && exists i | 0 <= i < |value.items| :: value.items[i] == text)
  }

  /** The note gives the property this value, as the scan lifted it or in its frontmatter. */
  predicate GivesValue(e: Entry, property: string, text: string) {
    || (property in e.fields && Says(e.fields[property], text))
    || (property in e.frontmatter && Says(e.frontmatter[property], text))
  }

  /** The parent of the note: the lifted one, unless it is missing or empty; then that of the frontmatter. */
  function ParentOf(e: Entry): Option<Value> {
    if "parent" in e.fields && e.fields["parent"] !in {Null, Flag(false), Scalar(""), List([])} then Some(e.fields["parent"])
    else if "parent" in e.frontmatter then Some(e.frontmatter["parent"])
    else None
  }

  /** The parent is the hub, by its bare name or as a link. */
  predicate PointsAt(e: Entry, hub: string) {
    ParentOf(e) == Some(Scalar(hub)) || ParentOf(e) == Some(Scalar("[[" + hub + "]]"))
  }

  // ---- what the schema allows ----

  predicate ValueAllowed(b: Builtins, s: Schema, f: Field, v: string) {
    v in b.values(f).builtin || (v != "" && f in s.values && v in s.values[f].allowed)
  }

  predicate TypeAllowed(b: Builtins, s: Schema, v: string) {
    v in b.types.builtin || (v != "" && (v in s.types.names || v in s.types.allowed))
  }

  predicate HubAllowed(s: Schema, d: string, v: string) {
    v != "" && d in s.hubs && exists i | 0 <= i < |s.hubs[d]| :: Strip(s.hubs[d][i].0) == v
  }

  predicate PropertyAllowed(b: Builtins, s: Schema, v: string) {
    v in b.properties.builtin || v in s.properties.names
  }

  lemma CurrentIs(b: Vocabulary, p: Property, v: string)
    ensures v in Current(b, p) <==> v in b.builtin || (v != "" && v in p.allowed)
  {
    ExtendMember(b.builtin, Keep(p.allowed, NonEmpty()), v);
    KeepMember(p.allowed, NonEmpty(), v);
  }

  lemma CurrentTypesIs(b: TypeVocabulary, t: Types, v: string)
    ensures v in CurrentTypes(b, t) <==> v in b.builtin || (v != "" && (v in t.names || v in t.allowed))
  {
    ExtendMember(b.builtin, Keep(t.names, NonEmpty()), v);
    ExtendMember(Extend(b.builtin, Keep(t.names, NonEmpty())), Keep(t.allowed, NonEmpty()), v);
    KeepMember(t.names, NonEmpty(), v);
    KeepMember(t.allowed, NonEmpty(), v);
  }

  lemma {:induction false} CurrentHubsIs(hubs: Listing, v: string)
    ensures v in Values(CurrentHubs(hubs)) <==> v != "" && exists i | 0 <= i < |hubs| :: Strip(hubs[i].0) == v
  {
    hide Strip;
    if hubs != [] {
      var m := hubs[..|hubs| - 1];
      CurrentHubsIs(m, v);
      var name := Strip(hubs[|hubs| - 1].0);
      var before := CurrentHubs(m);
      assert forall i | 0 <= i < |m| :: m[i] == hubs[i];
      assert Values(before + [(name, Strip(hubs[|hubs| - 1].1))]) == Values(before) + [name];
    }
  }

  lemma HubAllowedIs(s: Schema, d: string, v: string)
    ensures HubAllowed(s, d, v) <==> v in Values(CurrentHubs(HubsOf(s.hubs, d)))
  {
    CurrentHubsIs(HubsOf(s.hubs, d), v);
    hide Strip, CurrentHubs;
  }

  // ---- when something is in use ----

  lemma InUseIs(entries: seq<Entry>, property: string, v: string)
    ensures InUse(entries, property, v) <==> exists e | e in entries :: GivesValue(e, property, v)
  {
    if i :| 0 <= i < |entries| && (SchemaSync.Carries(entries[i].fields, property, v) || SchemaSync.Carries(entries[i].frontmatter, property, v)) {
      assert entries[i] in entries && GivesValue(entries[i], property, v);
    }
    if e :| e in entries && GivesValue(e, property, v) {
      var i :| 0 <= i < |entries| && entries[i] == e;
      assert SchemaSync.Carries(entries[i].fields, property, v) || SchemaSync.Carries(entries[i].frontmatter, property, v);
    }
  }

  lemma PointedAt(e: Entry, v: string)
    ensures PointsAt(e, v) <==> HubInUse([e], v)
  {
    assert [e][0] == e && "[[" + v + "]]" == "[[" + (v + "]]");
  }

  lemma HubInUseOne(entries: seq<Entry>, v: string)
    ensures HubInUse(entries, v) <==> exists e | e in entries :: HubInUse([e], v)
  {
    if i :| 0 <= i < |entries| && HubInUse([entries[i]], v) { assert entries[i] in entries; }
    forall i | 0 <= i < |entries| ensures [entries[i]][0] == entries[i] && entries[i] in entries {}
    if HubInUse(entries, v) {
      var i :| 0 <= i < |entries| &&
               var m := if SchemaSync.Truthy(entries[i].fields, "parent") then entries[i].fields else entries[i].frontmatter;
               "parent" in m && (m["parent"] == Scalar(v) || m["parent"] == Scalar("[[" + (v + "]]")));
      assert HubInUse([entries[i]], v) by { assert [entries[i]][0] == entries[i]; }
    }
  }

  lemma HubInUseIs(entries: seq<Entry>, v: string)
    ensures HubInUse(entries, v) <==> exists e | e in entries :: PointsAt(e, v)
  {
    HubInUseOne(entries, v);
    forall e: Entry ensures PointsAt(e, v) <==> HubInUse([e], v) { PointedAt(e, v); }
    hide PointsAt, HubInUse;
  }

  lemma PropertyInUseIs(entries: seq<Entry>, v: string)
    ensures PropertyInUse(entries, v) <==> exists e | e in entries :: v in e.frontmatter
  {
    if i :| 0 <= i < |entries| && v in entries[i].frontmatter { assert entries[i] in entries; }
  }

  // ---- what a sync allows ----

  /** A value of a controlled property is allowed afterwards if and only if it is built in, the note lists it,
      or it was allowed and some note of the vault gives the property that value. */
  lemma ValueKeptIffUsed(b: Builtins, s: Schema, n: Parsed, entries: seq<Entry>, f: Field, v: string)
    requires BuiltinsOk(b) && ParsedOk(n)
    ensures var property := match f case Status => "status" case Domain => "domain"
                                    case SourceKind => "source_kind" case CaptureType => "capture_type";
            ValueAllowed(b, Sync(b, s, n, entries), f, v) <==>
              || v in b.values(f).builtin || (exists i | 0 <= i < |n.values(f)| :: n.values(f)[i].0 == v)
              || (ValueAllowed(b, s, f, v) && exists e | e in entries :: GivesValue(e, property, v))
  {
    hide Sync, Current, InUse, GivesValue, BuiltinsOk, ParsedOk;
    SyncAllowsExactly(b, s, n, entries, ValueItem(f, v));
    InUseIs(entries, Key(f), v);
    CurrentIs(b.values(f), s.Stored(f), v);
    CurrentIs(b.values(f), Sync(b, s, n, entries).Stored(f), v);
    assert v in Values(n.values(f)) <==> exists i | 0 <= i < |n.values(f)| :: n.values(f)[i].0 == v by { ListedIs(n.values(f), v); }
  }

  lemma ListedIs(l: Listing, v: string)
    ensures v in Values(l) <==> exists i | 0 <= i < |l| :: l[i].0 == v
  {
    if i :| 0 <= i < |l| && l[i].0 == v { assert Values(l)[i] == v; }
  }

  /** The same for note types. */
  lemma TypeKeptIffUsed(b: Builtins, s: Schema, n: Parsed, entries: seq<Entry>, v: string)
    requires BuiltinsOk(b) && ParsedOk(n)
    ensures TypeAllowed(b, Sync(b, s, n, entries), v) <==>
              || v in b.types.builtin || (exists i | 0 <= i < |n.types| :: n.types[i].0 == v)
              || (TypeAllowed(b, s, v) && exists e | e in entries :: GivesValue(e, "type", v))
  {
    hide Sync, CurrentTypes, InUse, GivesValue, BuiltinsOk, ParsedOk;
    SyncAllowsExactly(b, s, n, entries, TypeItem(v));
    InUseIs(entries, "type", v);
    CurrentTypesIs(b.types, s.types, v);
    CurrentTypesIs(b.types, Sync(b, s, n, entries).types, v);
    ListedIs(n.types, v);
  }

  /** A hub of a domain is allowed afterwards if and only if the note lists it there, or it was allowed there
      and the parent of some note is its name, bare or as a link. */
  lemma HubKeptIffUsed(b: Builtins, s: Schema, n: Parsed, entries: seq<Entry>, d: string, v: string)
    requires BuiltinsOk(b) && ParsedOk(n)
    ensures HubAllowed(Sync(b, s, n, entries), d, v) <==>
              || (d in n.hubs && exists i | 0 <= i < |n.hubs[d]| :: n.hubs[d][i].0 == v)
              || (HubAllowed(s, d, v) && exists e | e in entries :: PointsAt(e, v))
  {
    hide Sync, CurrentHubs, HubInUse, PointsAt, HubAllowed, BuiltinsOk, ParsedOk;
    SyncAllowsExactly(b, s, n, entries, HubItem(d, v));
    HubInUseIs(entries, v);
    HubAllowedIs(s, d, v);
    HubAllowedIs(Sync(b, s, n, entries), d, v);
    ListedIs(HubsOf(n.hubs, d), v);
  }

  /** A property is declared afterwards if and only if it is built in, the note declares it, or it was declared
      and some note has it. A note without a properties section changes nothing. */
  lemma PropertyKeptIffUsed(b: Builtins, s: Schema, n: Parsed, entries: seq<Entry>, v: string)
    requires BuiltinsOk(b) && ParsedOk(n)
    ensures PropertyAllowed(b, Sync(b, s, n, entries), v) <==>
              if n.properties == [] then PropertyAllowed(b, s, v)
              else
                || v in b.properties.builtin || (exists i | 0 <= i < |n.properties| :: n.properties[i].0 == v)
                || (PropertyAllowed(b, s, v) && exists e | e in entries :: v in e.frontmatter)
  {
    hide Sync, PropertyInUse, BuiltinsOk, ParsedOk;
    SyncAllowsExactly(b, s, n, entries, PropertyItem(v));
    PropertyInUseIs(entries, v);
    ListedIs(n.properties, v);
  }

  // ---- what a sync reports ----

  /** The text the schema has for a value: its own, unless that is blank, or the built-in one. */
  function TextFor(b: Vocabulary, stored: map<string, string>, v: string): string {
    if v in stored && Strip(stored[v]) != "" then Strip(stored[v]) else if v in b.definitions then b.definitions[v] else ""
  }

  /** The note lists the value with this text, and the text is not blank. */
  predicate Redefines(l: Listing, v: string, text: string) {
    text != "" && exists i | 0 <= i < |l| :: l[i].0 == v && Strip(l[i].1) == text && forall j | 0 <= j < i :: l[j].0 != v
  }

  lemma {:induction false} RedefinesIs(l: Listing, v: string, text: string)
    ensures Redefines(l, v, text) <==> text != "" && DefinitionIn(l, v) == text
  {
    hide Strip;
    if l != [] {
      RedefinesIs(l[1..], v, text);
      assert forall i | 0 <= i < |l[1..]| :: l[1..][i] == l[i + 1];
      if l[0].0 != v {
        if i :| 0 <= i < |l| && l[i].0 == v && Strip(l[i].1) == text && forall j | 0 <= j < i :: l[j].0 != v {
          assert l[1..][i - 1].0 == v && forall j | 0 <= j < i - 1 :: l[1..][j].0 != v;
        }
        if i :| 0 <= i < |l[1..]| && l[1..][i].0 == v && Strip(l[1..][i].1) == text && forall j | 0 <= j < i :: l[1..][j].0 != v {
          assert l[i + 1].0 == v && forall j | 0 <= j < i + 1 :: l[j].0 != v;
        }
      } else {
        assert l[0].0 == v;
      }
    }
  }

  /** What is reported of a controlled property: as added the listed values that were not allowed, as edited
      the listed ones that were, with another text, as removed the allowed ones that are neither listed nor
      used, and as blocked those that are not listed but used. */
  lemma ValuesReported(b: Builtins, s: Schema, n: Parsed, entries: seq<Entry>, f: Field, v: string)
    requires BuiltinsOk(b)
    ensures var r := FieldReport(b, s, n, entries, f);
            var listed, allowed := v in Values(n.values(f)), ValueAllowed(b, s, f, v);
            var used := exists e | e in entries :: GivesValue(e, Key(f), v);
            && (v in r.added <==> listed && !allowed)
            && (v in r.edited <==> listed && allowed && exists text :: Redefines(n.values(f), v, text) && text != TextFor(b.values(f), s.Stored(f).definitions, v))
            && (v in r.removed <==> allowed && !listed && !used)
            && (v in r.blocked <==> allowed && !listed && used)
  {
    var voc, p, l := b.values(f), s.Stored(f), n.values(f);
    var used := Uses(entries, Key(f));
    assert VocabularyOk(voc);
    InUseIs(entries, Key(f), v);
    CurrentIs(voc, p, v);
    RedefinesIs(l, v, DefinitionIn(l, v));
    forall text: string ensures Redefines(l, v, text) ==> text == DefinitionIn(l, v) { RedefinesIs(l, v, text); }
    TextForIs(voc, p.definitions, v);
    KeepMember(Values(l), NotIn(Current(voc, p)), v);
    KeepMember(Values(l), Edits(voc, p, l), v);
    KeepMember(Current(voc, p), Drops(l, used), v);
    KeepMember(Current(voc, p), Blocks(l, used), v);
    hide Keep, Current, InUse, GivesValue, Definitions, DefinitionIn, Redefines, Strip, BuiltinsOk, VocabularyOk, TextFor;
  }

  lemma TextForIs(b: Vocabulary, stored: map<string, string>, v: string)
    requires VocabularyOk(b)
    ensures var defs := Definitions(b, stored); TextFor(b, stored, v) == if v in defs then Strip(defs[v]) else ""
  {
    ComparedIsText(b, stored, v);
    MergedTrimmed(b, stored);
    hide Strip, Trimmed;
  }

  /** What is reported of the hubs of a domain. */
  lemma HubsReported(s: Schema, n: Parsed, entries: seq<Entry>, d: string, v: string)
    ensures var r := DomainHubsReport(HubsOf(s.hubs, d), HubsOf(n.hubs, d), PointsTo(entries));
            var listed, allowed := v in Values(HubsOf(n.hubs, d)), HubAllowed(s, d, v);
            var used := exists e | e in entries :: PointsAt(e, v);
            && (v in r.added <==> listed && !allowed)
            && (v in r.edited <==>
                  allowed && exists text :: LastListed(HubsOf(n.hubs, d), v, text) && Strip(text) != "" && !FirstStored(HubsOf(s.hubs, d), v, Strip(text)))
            && (v in r.removed <==> allowed && !listed && !used)
            && (v in r.blocked <==> allowed && !listed && used)
  {
    HubsEdited(s, n, d, v);
    var l, hubs, used := HubsOf(n.hubs, d), HubsOf(s.hubs, d), PointsTo(entries);
    HubInUseIs(entries, v);
    HubAllowedIs(s, d, v);
    AsDictDistinct(l);
    KeepMember(Values(AsDict(l)), NotIn(Values(CurrentHubs(hubs))), v);
    KeepMember(Values(CurrentHubs(hubs)), Drops(AsDict(l), used), v);
    KeepMember(Values(CurrentHubs(hubs)), Blocks(AsDict(l), used), v);
    hide Keep, CurrentHubs, AsDict, HubInUse, PointsAt, HubAllowed, HubsOf, DefinitionIn, LastListed, FirstStored, HubEdits, Strip;
  }

  lemma HubsEdited(s: Schema, n: Parsed, d: string, v: string)
    ensures v in Keep(Values(AsDict(HubsOf(n.hubs, d))), HubEdits(CurrentHubs(HubsOf(s.hubs, d)), AsDict(HubsOf(n.hubs, d)))) <==>
      && HubAllowed(s, d, v)
      && exists text :: LastListed(HubsOf(n.hubs, d), v, text) && Strip(text) != "" && !FirstStored(HubsOf(s.hubs, d), v, Strip(text))
  {
    var l, hubs := HubsOf(n.hubs, d), HubsOf(s.hubs, d);
    var dict, cur := AsDict(l), CurrentHubs(hubs);
    KeepMember(Values(dict), HubEdits(cur, dict), v);
    HubAllowedIs(s, d, v);
    AsDictDistinct(l);
    CurrentHubsNamed(hubs);
    forall text: string ensures (v, text) in dict <==> LastListed(l, v, text) { AsDictLast(l, v, text); }
    forall text: string ensures (v, text) in cur <==> FirstStored(hubs, v, text) { CurrentHubsFirst(hubs, v, text); }
    hide CurrentHubs, AsDict, HubAllowed, HubsOf, LastListed, FirstStored;
    if v in Values(dict) {
      var i :| 0 <= i < |dict| && Values(dict)[i] == v;
      DefinitionOf(dict, v, dict[i].1);
      assert dict[i] == (v, dict[i].1) && dict[i] in dict;
      forall text: string | (v, text) in dict ensures text == dict[i].1 { OneText(dict, v, text, dict[i].1); }
    }
    if v in Values(cur) {
      var j :| 0 <= j < |cur| && Values(cur)[j] == v;
      assert cur[j] == (v, cur[j].1) && cur[j] in cur;
      DefinitionOf(cur, v, cur[j].1);
      CurrentTrimmed(hubs, v, cur[j].1);
      forall text: string | (v, text) in cur ensures text == cur[j].1 { OneText(cur, v, text, cur[j].1); }
    }
    forall text: string | (v, text) in dict ensures v in Values(dict) { InValues(dict, v, text); }
    hide DefinitionIn, Strip;
  }

  lemma InValues(l: Listing, v: string, text: string)
    requires (v, text) in l
    ensures v in Values(l)
  {
    var i :| 0 <= i < |l| && l[i] == (v, text);
    assert Values(l)[i] == v;
  }

  lemma OneText(l: Listing, v: string, a: string, c: string)
    requires Distinct(Values(l)) && (v, a) in l && (v, c) in l
    ensures a == c
  {
    var i :| 0 <= i < |l| && l[i] == (v, a);
    var j :| 0 <= j < |l| && l[j] == (v, c);
    assert Values(l)[i] == v && Values(l)[j] == v;
  }

  lemma {:induction false} DefinitionOf(l: Listing, v: string, text: string)
    requires Distinct(Values(l)) && (v, text) in l
    ensures DefinitionIn(l, v) == Strip(text)
  {
    if l[0].0 == v {
      assert (v, l[0].1) in l;
      OneText(l, v, text, l[0].1);
    } else {
      var i :| 0 <= i < |l| && l[i] == (v, text);
      assert l[1..][i - 1] == l[i] && Values(l[1..]) == Values(l)[1..];
      DefinitionOf(l[1..], v, text);
    }
  }

  lemma CurrentTrimmed(hubs: Listing, v: string, text: string)
    requires (v, text) in CurrentHubs(hubs)
    ensures Strip(text) == text
  {
    CurrentHubsFirst(hubs, v, text);
    hide Strip, CurrentHubs;
    var i :| 0 <= i < |hubs| && Strip(hubs[i].0) == v && Strip(hubs[i].1) == text && forall j | 0 <= j < i :: Strip(hubs[j].0) != v;
    StripIsTrimmed(hubs[i].1);
    StripTrimmed(text);
  }

  /** The description a note type has: the built-in one for a built-in type, else the stored one, stripped. */
  function DescriptionFor(b: Builtins, s: Schema, v: string): string {
    var specs := if v in b.types.builtin then b.types.specs else s.types.specs;
    if v in specs && "description" in specs[v] then Strip(specs[v]["description"]) else ""
  }

  /** What is reported of note types. */
  lemma TypesReported(b: Builtins, s: Schema, n: Parsed, entries: seq<Entry>, v: string)
    ensures var r := TypesReport(b.types, s.types, n.types, Uses(entries, "type"));
            var listed, allowed := v in Values(n.types), TypeAllowed(b, s, v);
            var used := exists e | e in entries :: GivesValue(e, "type", v);
            && (v in r.added <==> listed && !allowed)
            && (v in r.edited <==> listed && allowed && exists text :: Redefines(n.types, v, text) && text != DescriptionFor(b, s, v))
            && (v in r.removed <==> allowed && !listed && !used)
            && (v in r.blocked <==> allowed && !listed && used)
  {
    var l, used := n.types, Uses(entries, "type");
    InUseIs(entries, "type", v);
    CurrentTypesIs(b.types, s.types, v);
    KeepMember(Values(l), NotIn(CurrentTypes(b.types, s.types)), v);
    KeepMember(CurrentTypes(b.types, s.types), Drops(l, used), v);
    KeepMember(CurrentTypes(b.types, s.types), Blocks(l, used), v);
    KeepMember(Values(l), TypeEdits(b.types, s.types, l), v);
    RedefinesIs(l, v, DefinitionIn(l, v));
    forall text: string ensures Redefines(l, v, text) <==> text != "" && DefinitionIn(l, v) == text { RedefinesIs(l, v, text); }
    assert TypeDefinition(b.types, s.types, v) == DescriptionFor(b, s, v);
    hide Keep, CurrentTypes, InUse, GivesValue, TypeDefinition, DescriptionFor, DefinitionIn, Redefines;
  }

  /** What is reported of declared properties; a built-in one is never removed. */
  lemma PropertiesReportSays(b: Builtins, s: Schema, n: Parsed, entries: seq<Entry>, v: string)
    requires BuiltinsOk(b)
    ensures var r := PropertiesReported(b, s, n, entries);
            var listed, declared := v in Values(n.properties), v in s.properties.names;
            var used := exists e | e in entries :: v in e.frontmatter;
            && (v in r.added <==> listed && !declared && v !in b.properties.builtin)
            && (v in r.edited <==>
                  && listed && (declared || v in b.properties.builtin)
                  && exists text :: Redefines(n.properties, v, text) && text != TextFor(b.properties, s.properties.definitions, v))
            && (v in r.removed <==> n.properties != [] && declared && !listed && !used)
            && (v in r.blocked <==> n.properties != [] && declared && !listed && used)
  {
    var voc, p, l, used := b.properties, s.properties, n.properties, CarriedBy(entries);
    PropertyInUseIs(entries, v);
    KeepMember(Values(l), NotIn(voc.builtin + p.names), v);
    KeepMember(p.names, Drops(l, used), v);
    KeepMember(p.names, Blocks(l, used), v);
    KeepMember(Values(l), PropertyEdits(voc, p, l), v);
    RedefinesIs(l, v, DefinitionIn(l, v));
    forall text: string ensures Redefines(l, v, text) <==> text != "" && DefinitionIn(l, v) == text { RedefinesIs(l, v, text); }
    TextForIs(voc, p.definitions, v);
    hide Keep, PropertyInUse, Definitions, DefinitionIn, Redefines, Strip, TextFor;
  }

  // ---- the texts a sync leaves ----

  /** What is stored for a value: the text the note gives it, or the text the schema had for it when the note
      leaves it out and the value stays only because it is used. */
  lemma KeptText(b: Vocabulary, stored: map<string, string>, blocked: seq<string>, l: Listing, v: string, text: string)
    requires VocabularyOk(b) && (v in blocked ==> v !in Values(l))
    ensures var after := KeptDefinitions(Definitions(b, stored), blocked, l);
      v in after && after[v] == text <==>
        Redefines(l, v, text) || (v in blocked && text != "" && text == TextFor(b, stored, v))
  {
    RedefinesIs(l, v, text);
    RedefinesIs(l, v, DefinitionIn(l, v));
    if DefinitionIn(l, v) != "" { RedefinesListed(l, v, DefinitionIn(l, v)); }
    TextForIs(b, stored, v);
    MergedTrimmed(b, stored);
    if v in Definitions(b, stored) { StripTrimmed(Definitions(b, stored)[v]); }
    hide Definitions, DefinitionIn, Redefines, Strip, Trimmed, TextFor, VocabularyOk;
  }

  lemma RedefinesListed(l: Listing, v: string, text: string)
    requires Redefines(l, v, text)
    ensures v in Values(l)
  {
    var i :| 0 <= i < |l| && l[i].0 == v && Strip(l[i].1) == text && forall j | 0 <= j < i :: l[j].0 != v;
    assert Values(l)[i] == v;
  }

  lemma ValueTexts(b: Builtins, s: Schema, n: Parsed, entries: seq<Entry>, f: Field, v: string, text: string)
    requires BuiltinsOk(b)
    ensures var after := Sync(b, s, n, entries).Stored(f).definitions;
            var listed, allowed := v in Values(n.values(f)), ValueAllowed(b, s, f, v);
            var used := exists e | e in entries :: GivesValue(e, Key(f), v);
      v in after && after[v] == text <==>
        || Redefines(n.values(f), v, text)
        || (!listed && allowed && used && text != "" && text == TextFor(b.values(f), s.Stored(f).definitions, v))
  {
    var voc, p, l := b.values(f), s.Stored(f), n.values(f);
    var used := Uses(entries, Key(f));
    assert VocabularyOk(voc);
    InUseIs(entries, Key(f), v);
    CurrentIs(voc, p, v);
    KeepMember(Current(voc, p), Blocks(l, used), v);
    KeptText(voc, p.definitions, Keep(Current(voc, p), Blocks(l, used)), l, v, text);
    hide Keep, Current, InUse, GivesValue, Definitions, DefinitionIn, Redefines, Strip, BuiltinsOk, VocabularyOk, TextFor, KeptDefinitions;
  }

  /** The same for declared properties; and a property is a list afterwards if the note says so, or leaves it
      out and it was one. */
  lemma PropertyTexts(b: Builtins, s: Schema, n: Parsed, entries: seq<Entry>, v: string, text: string)
    requires BuiltinsOk(b) && n.properties != []
    ensures var after := Sync(b, s, n, entries).properties;
            var listed, declared := v in Values(n.properties), v in s.properties.names;
            var used := exists e | e in entries :: v in e.frontmatter;
      && (v in after.definitions && after.definitions[v] == text <==>
            || Redefines(n.properties, v, text)
            || (!listed && declared && used && text != "" && text == TextFor(b.properties, s.properties.definitions, v)))
      && (v in after.lists <==> v in after.names && if listed then v in n.lists else v in s.properties.lists)
  {
    var voc, p, l, used := b.properties, s.properties, n.properties, CarriedBy(entries);
    PropertyInUseIs(entries, v);
    KeepMember(p.names, Blocks(l, used), v);
    KeptText(voc, p.definitions, Keep(p.names, Blocks(l, used)), l, v, text);
    hide Keep, PropertyInUse, Definitions, DefinitionIn, Redefines, Strip, VocabularyOk, TextFor, KeptDefinitions;
  }

  /** What is stored for a note type: everything that was, or the built-in entry for a new one; with the text
      of the note as description, if it gives one, else the old description; and a folder, empty when it had
      none. */
  lemma TypeSpecs(b: Builtins, s: Schema, n: Parsed, entries: seq<Entry>, v: string)
    ensures var after, types := Sync(b, s, n, entries).types, s.types;
            var base: map<string, string> := if v in types.specs then types.specs[v] else if v in b.types.specs then b.types.specs[v] else map[];
      && (v in after.specs <==> v in after.names) && after.allowed == [""] + after.names
      && (v in after.specs ==>
            && after.specs[v].Keys == base.Keys + {"description", "folder"}
            && (forall x | x in base && x != "description" :: after.specs[v][x] == base[x])
            && ("folder" !in base ==> after.specs[v]["folder"] == "")
            && (forall text | Redefines(n.types, v, text) :: after.specs[v]["description"] == text)
            && ((forall text :: !Redefines(n.types, v, text)) && "description" in base ==> after.specs[v]["description"] == base["description"]))
  {
    SpecSays(b.types, s.types, n.types, v);
    hide Keep, BlockedTypes, NewSpec, Redefines;
    assert Sync(b, s, n, entries).types == ApplyTypes(b.types, s.types, n.types, Uses(entries, "type"));
  }

  lemma SpecSays(b: TypeVocabulary, t: Types, l: Listing, v: string)
    ensures var base: map<string, string> := if v in t.specs then t.specs[v] else if v in b.specs then b.specs[v] else map[];
            var spec := NewSpec(b, t, l, v);
      && spec.Keys == base.Keys + {"description", "folder"}
      && (forall x | x in base && x != "description" :: spec[x] == base[x])
      && ("folder" !in base ==> spec["folder"] == "")
      && (forall text | Redefines(l, v, text) :: spec["description"] == text)
      && ((forall text :: !Redefines(l, v, text)) && "description" in base ==> spec["description"] == base["description"])
  {
    RedefinesIs(l, v, DefinitionIn(l, v));
    forall text: string ensures Redefines(l, v, text) ==> text != "" && DefinitionIn(l, v) == text { RedefinesIs(l, v, text); }
    assert "description" != "folder" by { assert |"description"| != |"folder"|; }
    hide TypeDefinition, DefinitionIn, Redefines;
  }

  /** The hubs of a domain afterwards, with their texts: the last line of the note for each hub it lists, and
      the stored text of each other hub that stays because it is used. */
  lemma HubTexts(s: Schema, n: Parsed, entries: seq<Entry>, d: string, v: string, text: string)
    ensures (v, text) in ApplyDomainHubs(HubsOf(s.hubs, d), HubsOf(n.hubs, d), PointsTo(entries)) <==>
      || LastListed(HubsOf(n.hubs, d), v, text)
      || (v !in Values(HubsOf(n.hubs, d)) && (exists e | e in entries :: PointsAt(e, v)) && FirstStored(HubsOf(s.hubs, d), v, text))
  {
    var l, hubs, used := HubsOf(n.hubs, d), HubsOf(s.hubs, d), PointsTo(entries);
    HubInUseIs(entries, v);
    AsDictDistinct(l);
    AsDictLast(l, v, text);
    CurrentHubsFirst(hubs, v, text);
    KeptHubs(CurrentHubs(hubs), Blocks(AsDict(l), used), v, text);
    hide CurrentHubs, AsDict, HubInUse, PointsAt, HubsOf, KeepHubs, LastListed, FirstStored;
  }

  ghost predicate LastListed(l: Listing, v: string, text: string) {
    exists i | 0 <= i < |l| :: l[i] == (v, text) && forall j | i < j < |l| :: l[j].0 != v
  }

  /** The first stored hub of that name, white space aside. */
  ghost predicate FirstStored(l: Listing, v: string, text: string) {
    v != "" && exists i | 0 <= i < |l| :: Strip(l[i].0) == v && Strip(l[i].1) == text && forall j | 0 <= j < i :: Strip(l[j].0) != v
  }

  lemma LastListedSnoc(m: Listing, last: (string, string), v: string, text: string)
    ensures LastListed(m + [last], v, text) <==> if last.0 == v then last.1 == text else LastListed(m, v, text)
  {
    var l := m + [last];
    assert l[|m|] == last && forall i | 0 <= i < |m| :: l[i] == m[i];
    if last.0 != v && LastListed(m, v, text) {
      var i :| 0 <= i < |m| && m[i] == (v, text) && forall j | i < j < |m| :: m[j].0 != v;
      assert l[i] == (v, text);
    }
    if last == (v, text) { assert l[|m|] == (v, text); }
  }

  lemma {:induction false} AsDictLast(l: Listing, v: string, text: string)
    ensures (v, text) in AsDict(l) <==> LastListed(l, v, text)
  {
    if l != [] {
      var m, last := l[..|l| - 1], l[|l| - 1];
      AsDictLast(m, v, text);
      LastListedSnoc(m, last, v, text);
      assert l == m + [last];
      ReplacedIs(AsDict(m), last.0, last.1, v, text);
      hide LastListed;
    }
  }

  lemma ReplacedIs(l: Listing, name: string, text: string, v: string, d: string)
    ensures name in Values(l) ==> ((v, d) in Replaced(l, name, text) <==> if v == name then d == text else (v, d) in l)
    ensures name !in Values(l) ==> ((v, d) in l + [(name, text)] <==> if v == name then d == text else (v, d) in l)
  {
    if name in Values(l) {
      var i :| 0 <= i < |l| && Values(l)[i] == name;
      assert Replaced(l, name, text)[i] == (name, text);
      if j :| 0 <= j < |l| && l[j] == (v, d) { assert Replaced(l, name, text)[j] == if v == name then (name, text) else (v, d); }
    } else if v == name {
      if j :| 0 <= j < |l| && l[j] == (v, d) { assert Values(l)[j] == v; }
    }
  }

  lemma FirstStoredSnoc(m: Listing, last: (string, string), v: string, text: string)
    ensures FirstStored(m + [last], v, text) <==>
              || FirstStored(m, v, text)
              || (v != "" && Strip(last.0) == v && Strip(last.1) == text && forall j | 0 <= j < |m| :: Strip(m[j].0) != v)
  {
    hide Strip;
    var l := m + [last];
    assert l[|m|] == last && forall i | 0 <= i < |m| :: l[i] == m[i];
    if FirstStored(m, v, text) {
      var i :| 0 <= i < |m| && Strip(m[i].0) == v && Strip(m[i].1) == text && forall j | 0 <= j < i :: Strip(m[j].0) != v;
      assert Strip(l[i].0) == v && Strip(l[i].1) == text;
    }
    if v != "" && Strip(last.0) == v && Strip(last.1) == text && forall j | 0 <= j < |m| :: Strip(m[j].0) != v {
      assert Strip(l[|m|].0) == v && Strip(l[|m|].1) == text;
    }
  }

  lemma {:induction false} CurrentHubsFirst(hubs: Listing, v: string, text: string)
    ensures (v, text) in CurrentHubs(hubs) <==> FirstStored(hubs, v, text)
  {
    if hubs != [] {
      var m, last := hubs[..|hubs| - 1], hubs[|hubs| - 1];
      CurrentHubsFirst(m, v, text);
      FirstStoredSnoc(m, last, v, text);
      assert hubs == m + [last];
      CurrentHubsIs(m, Strip(last.0));
      hide FirstStored, Strip;
    }
  }

  lemma {:induction false} KeptHubs(l: Listing, keep: string -> bool, v: string, text: string)
    ensures (v, text) in KeepHubs(l, keep) <==> keep(v) && (v, text) in l
  {
    if l != [] {
      KeptHubs(l[1..], keep, v, text);
      assert l == [l[0]] + l[1..];
    }
  }
}
