/** Reconciling the structured schema with the edited schema note (`schema_note.py`, `schema.py`). */
module SchemaSync {
  import opened Text
  import opened Frontmatter
  import opened SchemaTerms

  // ---- ordered lists without repetition ----

  ghost predicate Distinct(s: seq<string>) {
    forall i, j | 0 <= i < j < |s| :: s[i] != s[j]
  }

  ghost predicate Disjoint(s: seq<string>, t: seq<string>) {
    forall v | v in s :: v !in t
  }

  /** `[v for v in s if keep(v)]` */
  function Keep(s: seq<string>, keep: string -> bool): seq<string> {
    if s == [] then [] else (if keep(s[0]) then [s[0]] else []) + Keep(s[1..], keep)
  }

  /** `base`, and then each value of `more` that is not there yet. */
  function Extend(base: seq<string>, more: seq<string>): seq<string> {
    if more == [] then base
    else
      var before := Extend(base, more[..|more| - 1]);
      if more[|more| - 1] in before then before else before + [more[|more| - 1]]
  }

  lemma {:induction false} KeepMember(s: seq<string>, keep: string -> bool, v: string)
    ensures v in Keep(s, keep) <==> v in s && keep(v)
  {
    if s != [] {
      KeepMember(s[1..], keep, v);
      assert v in s <==> v == s[0] || v in s[1..];
    }
  }

  lemma {:induction false} KeepDistinct(s: seq<string>, keep: string -> bool)
    requires Distinct(s)
    ensures Distinct(Keep(s, keep))
  {
    if s != [] {
      KeepDistinct(s[1..], keep);
      KeepMember(s[1..], keep, s[0]);
    }
  }

  lemma {:induction false} KeepConcat(s: seq<string>, t: seq<string>, keep: string -> bool)
    ensures Keep(s + t, keep) == Keep(s, keep) + Keep(t, keep)
  {
    if s == [] {
      assert s + t == t;
    } else {
      assert (s + t)[1..] == s[1..] + t;
      KeepConcat(s[1..], t, keep);
    }
  }

  lemma {:induction false} KeepAll(s: seq<string>, keep: string -> bool)
    requires forall v | v in s :: keep(v)
    ensures Keep(s, keep) == s
  {
    if s != [] { KeepAll(s[1..], keep); }
  }

  lemma {:induction false} KeepNone(s: seq<string>, keep: string -> bool)
    requires forall v | v in s :: !keep(v)
    ensures Keep(s, keep) == []
  {
    if s != [] { KeepNone(s[1..], keep); }
  }

  lemma {:induction false} KeepSame(s: seq<string>, p: string -> bool, q: string -> bool)
    requires forall v | v in s :: p(v) == q(v)
    ensures Keep(s, p) == Keep(s, q)
  {
    if s != [] { KeepSame(s[1..], p, q); }
  }

  lemma {:induction false} ExtendMember(base: seq<string>, more: seq<string>, v: string)
    ensures v in Extend(base, more) <==> v in base || v in more
  {
    if more != [] {
      ExtendMember(base, more[..|more| - 1], v);
      ExtendMember(base, more[..|more| - 1], more[|more| - 1]);
      assert v in more <==> v == more[|more| - 1] || v in more[..|more| - 1];
    }
  }

  /** What extending adds: distinct values that the base does not have. */
  lemma {:induction false} ExtendShape(base: seq<string>, more: seq<string>) returns (extra: seq<string>)
    requires Distinct(base)
    ensures Extend(base, more) == base + extra && Distinct(base + extra) && Disjoint(extra, base)
    ensures forall v | v in extra :: v in more
  {
    if more == [] {
      extra := [];
    } else {
      var before := ExtendShape(base, more[..|more| - 1]);
      var last := more[|more| - 1];
      extra := if last in base + before then before else before + [last];
    }
  }

  lemma {:induction false} ExtendConcat(base: seq<string>, m: seq<string>, n: seq<string>)
    ensures Extend(base, m + n) == Extend(Extend(base, m), n)
  {
    if n == [] {
      assert m + n == m;
    } else {
      assert (m + n)[..|m + n| - 1] == m + n[..|n| - 1];
      ExtendConcat(base, m, n[..|n| - 1]);
    }
  }

  lemma {:induction false} ExtendInside(base: seq<string>, more: seq<string>)
    requires forall v | v in more :: v in base
    ensures Extend(base, more) == base
  {
    if more != [] { ExtendInside(base, more[..|more| - 1]); }
  }

  lemma {:induction false} ExtendFresh(base: seq<string>, more: seq<string>)
    requires Distinct(more) && Disjoint(more, base)
    ensures Extend(base, more) == base + more
  {
    if more != [] {
      var m := more[..|more| - 1];
      ExtendFresh(base, m);
      assert more == m + [more[|more| - 1]];
    }
  }

  // ---- notes of the vault, and what they use ----

  /** A scanned note: the fields the scanner lifts out, and its frontmatter. */
  datatype Entry = Entry(fields: map<string, Value>, frontmatter: map<string, Value>)

  predicate Carries(m: map<string, Value>, key: string, value: string) {
    key in m && (m[key] == Scalar(value) || (m[key].List? && value in m[key].items))
  }

  /** `_value_in_use`. */
  predicate InUse(entries: seq<Entry>, key: string, value: string) {
    exists i | 0 <= i < |entries| :: Carries(entries[i].fields, key, value) || Carries(entries[i].frontmatter, key, value)
  }

  predicate Truthy(m: map<string, Value>, key: string) {
    key in m && match m[key] case Null => false case Flag(on) => on case Scalar(t) => t != "" case List(items) => items != []
  }

  /** `_hub_in_use`. */
  predicate HubInUse(entries: seq<Entry>, name: string) {
    exists i | 0 <= i < |entries| ::
      var m := if Truthy(entries[i].fields, "parent") then entries[i].fields else entries[i].frontmatter;
      "parent" in m && (m["parent"] == Scalar(name) || m["parent"] == Scalar("[[" + (name + "]]")))
  }

  /** `_property_in_use`. */
  predicate PropertyInUse(entries: seq<Entry>, name: string) {
    exists i | 0 <= i < |entries| :: name in entries[i].frontmatter
  }

  // ---- what the note says ----

  /** The bullets of one section, in order: a value and its definition. */
  type Listing = seq<(string, string)>

  function Values(l: Listing): (r: seq<string>)
    ensures |r| == |l| && forall i | 0 <= i < |l| :: r[i] == l[i].0
  {
    seq(|l|, i requires 0 <= i < |l| => l[i].0)
  }

  /** A section as the parser returns it: no value is empty or listed twice. */
  ghost predicate ListingOk(l: Listing) {
    Distinct(Values(l)) && "" !in Values(l)
  }

  /** The definition the note gives a value, stripped; "" when it gives none. */
  function DefinitionIn(l: Listing, v: string): string {
    if l == [] then "" else if l[0].0 == v then Strip(l[0].1) else DefinitionIn(l[1..], v)
  }

  // ---- controlled properties ----

  /** The built-in values of a controlled property, in order, and their definitions. */
  datatype Vocabulary = Vocabulary(builtin: seq<string>, definitions: map<string, string>)

  ghost predicate VocabularyOk(b: Vocabulary) {
    Distinct(b.builtin) && "" !in b.builtin && forall v | v in b.definitions :: Trimmed(b.definitions[v])
  }

  /** What the schema stores for a controlled property. */
  datatype Property = Property(allowed: seq<string>, definitions: map<string, string>)

  /** The effective values: `allowed_controlled_values_from_schema` without the empty one. */
  function Current(b: Vocabulary, p: Property): seq<string> {
    Extend(b.builtin, Keep(p.allowed, NonEmpty()))
  }

  /** The effective definitions: `definitions_for`. */
  function Definitions(b: Vocabulary, stored: map<string, string>): map<string, string> {
    b.definitions + map v | v in stored && Strip(stored[v]) != "" :: Strip(stored[v])
  }

  datatype Report = Report(added: seq<string>, edited: seq<string>, removed: seq<string>, blocked: seq<string>)

  const NOTHING := Report([], [], [], [])

  /** The report counts as a change: a removal that was blocked does not. */
  predicate Changes(r: Report) {
    r.added != [] || r.edited != [] || r.removed != []
  }

  /** The text stored for a value, "" when there is none. */
  function TextOf(defs: map<string, string>, v: string): string {
    if v in defs then defs[v] else ""
  }

  function NonEmpty(): string -> bool {
    v => v != ""
  }

  function NotIn(s: seq<string>): string -> bool {
    v => v !in s
  }

  function Drops(l: Listing, used: string -> bool): string -> bool {
    v => v !in Values(l) && !used(v)
  }

  function Stays(l: Listing, used: string -> bool): string -> bool {
    v => v in Values(l) || used(v)
  }

  function Blocks(l: Listing, used: string -> bool): string -> bool {
    v => v !in Values(l) && used(v)
  }

  /** The note redefines a value that was already allowed. */
  function Edits(b: Vocabulary, p: Property, l: Listing): string -> bool {
    var defs := Definitions(b, p.definitions);
    v => v in Current(b, p) && DefinitionIn(l, v) != "" && DefinitionIn(l, v) != (if v in defs then Strip(defs[v]) else "")
  }

  function KeptDefinitions(defs: map<string, string>, blocked: seq<string>, l: Listing): map<string, string> {
    (map v | v in blocked && v in defs && defs[v] != "" :: defs[v])
    + (map v | v in Values(l) && DefinitionIn(l, v) != "" :: DefinitionIn(l, v))
  }

  /** `_apply_controlled`. */
  function ApplyControlled(b: Vocabulary, p: Property, l: Listing, used: string -> bool): Property {
    var current := Current(b, p);
    Property([""] + Final(b, p, l, used),
             KeptDefinitions(Definitions(b, p.definitions), Keep(current, Blocks(l, used)), l))
  }

  function ControlledReport(b: Vocabulary, p: Property, l: Listing, used: string -> bool): Report {
    var current := Current(b, p);
    Report(Keep(Values(l), NotIn(current)), Keep(Values(l), Edits(b, p, l)),
           Keep(current, Drops(l, used)), Keep(current, Blocks(l, used)))
  }

  /** The values one application leaves. */
  function Final(b: Vocabulary, p: Property, l: Listing, used: string -> bool): seq<string> {
    Keep(Current(b, p), Stays(l, used)) + Keep(Values(l), NotIn(Current(b, p)))
  }

  lemma FinalMember(b: Vocabulary, p: Property, l: Listing, used: string -> bool, v: string)
    ensures v in Final(b, p, l, used) <==> v in Values(l) || (v in Current(b, p) && used(v))
  {
    hide Current;
    KeepMember(Current(b, p), Stays(l, used), v);
    KeepMember(Values(l), NotIn(Current(b, p)), v);
  }

  lemma CurrentAfter(b: Vocabulary, p: Property, l: Listing, used: string -> bool)
    requires VocabularyOk(b) && ListingOk(l)
    ensures Current(b, ApplyControlled(b, p, l, used)) == Extend(b.builtin, Final(b, p, l, used))
  {
    var final := Final(b, p, l, used);
    CurrentNonEmpty(b, p);
    FinalMember(b, p, l, used, "");
    StoredBack(final);
    assert ApplyControlled(b, p, l, used).allowed == [""] + final;
  }

  lemma StoredBack(final: seq<string>)
    requires "" !in final
    ensures Keep([""] + final, NonEmpty()) == final
  {
    KeepAll(final, NonEmpty());
    assert ([""] + final)[1..] == final;
  }

  lemma CurrentNonEmpty(b: Vocabulary, p: Property)
    requires VocabularyOk(b)
    ensures "" !in Current(b, p)
  {
    ExtendMember(b.builtin, Keep(p.allowed, NonEmpty()), "");
    KeepMember(p.allowed, NonEmpty(), "");
  }

  /** The effective values afterwards are exactly the built-in ones, those of the note, and those whose
      removal was blocked because a note uses them. */
  lemma EffectiveValues(b: Vocabulary, p: Property, l: Listing, used: string -> bool, v: string)
    requires VocabularyOk(b) && ListingOk(l)
    ensures v in Current(b, ApplyControlled(b, p, l, used)) <==>
              v in b.builtin || v in Values(l) || v in ControlledReport(b, p, l, used).blocked
  {
    CurrentAfter(b, p, l, used);
    hide Current, Final, ApplyControlled, ListingOk;
    ExtendMember(b.builtin, Final(b, p, l, used), v);
    FinalMember(b, p, l, used, v);
    KeepMember(Current(b, p), Blocks(l, used), v);
  }

  lemma DistinctConcat(s: seq<string>, t: seq<string>)
    requires Distinct(s) && Distinct(t) && Disjoint(t, s)
    ensures Distinct(s + t)
  {
    var u := s + t;
    forall i, j | 0 <= i < j < |u| ensures u[i] != u[j] {
      if i < |s| <= j {
        assert u[j] == t[j - |s|] && u[j] in t && u[i] in s;
      }
    }
  }

  lemma DistinctTail(s: seq<string>, t: seq<string>)
    requires Distinct(s + t)
    ensures Distinct(t)
  {
    forall i, j | 0 <= i < j < |t| ensures t[i] != t[j] {
      assert (s + t)[|s| + i] == t[i] && (s + t)[|s| + j] == t[j];
    }
  }

  /** What extending a list by its own kept values and `rest` gives, when `rest` is new to it. */
  lemma ExtendKept(base: seq<string>, keep: string -> bool, rest: seq<string>)
    requires Distinct(rest) && Disjoint(rest, base)
    ensures Extend(base, Keep(base, keep) + rest) == base + rest
  {
    forall v | v in Keep(base, keep) ensures v in base { KeepMember(base, keep, v); }
    ExtendConcat(base, Keep(base, keep), rest);
    ExtendInside(base, Keep(base, keep));
    ExtendFresh(base, rest);
  }

  /** The values after one application: the kept built-in ones, then the kept and new other ones. */
  lemma FinalShape(b: Vocabulary, p: Property, l: Listing, used: string -> bool) returns (rest: seq<string>)
    requires VocabularyOk(b) && ListingOk(l)
    ensures Final(b, p, l, used) == Keep(b.builtin, Stays(l, used)) + rest
    ensures Distinct(rest) && Disjoint(rest, b.builtin) && forall v | v in rest :: Stays(l, used)(v)
  {
    var extra := ExtendShape(b.builtin, Keep(p.allowed, NonEmpty()));
    var keep, unseen := Stays(l, used), NotIn(Current(b, p));
    DistinctTail(b.builtin, extra);
    KeepConcat(b.builtin, extra, keep);
    var kept, new_ := Keep(extra, keep), Keep(Values(l), unseen);
    rest := kept + new_;
    assert Keep(b.builtin, keep) + kept + new_ == Keep(b.builtin, keep) + rest;
    KeepDistinct(extra, keep);
    KeepDistinct(Values(l), unseen);
    KeptAndNew(b.builtin, extra, l, keep, unseen);
    DistinctConcat(kept, new_);
  }

  lemma KeptAndNew(base: seq<string>, extra: seq<string>, l: Listing, keep: string -> bool, unseen: string -> bool)
    requires Disjoint(extra, base) && (forall v :: unseen(v) == (v !in base + extra)) && forall v | v in Values(l) :: keep(v)
    ensures Disjoint(Keep(Values(l), unseen), Keep(extra, keep))
    ensures Disjoint(Keep(extra, keep) + Keep(Values(l), unseen), base)
    ensures forall v | v in Keep(extra, keep) + Keep(Values(l), unseen) :: keep(v)
  {
    forall v
      ensures v in Keep(extra, keep) <==> v in extra && keep(v)
      ensures v in Keep(Values(l), unseen) <==> v in Values(l) && unseen(v)
    {
      KeepMember(extra, keep, v);
      KeepMember(Values(l), unseen, v);
    }
  }

  /** Applying the same section again keeps the same values in the same order. */
  lemma FinalAgain(b: Vocabulary, p: Property, l: Listing, used: string -> bool)
    requires VocabularyOk(b) && ListingOk(l)
    ensures Final(b, ApplyControlled(b, p, l, used), l, used) == Final(b, p, l, used)
  {
    var rest := FinalShape(b, p, l, used);
    var keep := Stays(l, used);
    var after := ApplyControlled(b, p, l, used);
    CurrentAfter(b, p, l, used);
    ExtendKept(b.builtin, keep, rest);
    assert Current(b, after) == b.builtin + rest;
    KeepConcat(b.builtin, rest, keep);
    KeepAll(rest, keep);
    forall v | v in Values(l) ensures v in Current(b, after) { EffectiveValues(b, p, l, used, v); }
    KeepNone(Values(l), NotIn(Current(b, after)));
  }

  lemma {:induction false} DefinitionAbsent(l: Listing, v: string)
    requires v !in Values(l)
    ensures DefinitionIn(l, v) == ""
  {
    if l != [] {
      assert Values(l)[0] == l[0].0;
      forall i | 0 <= i < |l[1..]| ensures Values(l[1..])[i] != v { assert Values(l)[i + 1] == l[1..][i].0; }
      DefinitionAbsent(l[1..], v);
    }
  }

  lemma {:induction false} DefinitionTrimmed(l: Listing, v: string)
    ensures Trimmed(DefinitionIn(l, v))
  {
    if l != [] {
      StripIsTrimmed(l[0].1);
      DefinitionTrimmed(l[1..], v);
    }
    hide Strip, Trimmed;
  }

  lemma MergedTrimmed(b: Vocabulary, stored: map<string, string>)
    requires VocabularyOk(b)
    ensures forall v | v in Definitions(b, stored) :: Trimmed(Definitions(b, stored)[v])
  {
    hide Strip, Trimmed;
    forall v | v in stored ensures Trimmed(Strip(stored[v])) { StripIsTrimmed(stored[v]); }
  }

  /** A definition that is kept for a blocked value is read back as it was. */
  lemma KeptReadsBack(b: Vocabulary, stored: map<string, string>, blocked: seq<string>, l: Listing, v: string)
    requires VocabularyOk(b) && v in blocked && v !in Values(l)
    ensures var again := Definitions(b, KeptDefinitions(Definitions(b, stored), blocked, l));
            var once := Definitions(b, stored);
            SameText(once, again, v)
  {
    MergedTrimmed(b, stored);
    var once := Definitions(b, stored);
    if v in once { StripTrimmed(once[v]); }
  }

  /** The two merged definitions agree on a value, as far as keeping goes. */
  predicate SameText(d: map<string, string>, e: map<string, string>, v: string) {
    (v in e && e[v] != "" <==> v in d && d[v] != "") && (v in d && d[v] != "" ==> e[v] == d[v])
  }

  lemma KeptSame(d: map<string, string>, e: map<string, string>, blocked: seq<string>, l: Listing)
    requires forall v | v in blocked :: SameText(d, e, v)
    ensures KeptDefinitions(e, blocked, l) == KeptDefinitions(d, blocked, l)
  {
    hide DefinitionIn;
    assert forall v | v in blocked :: SameText(d, e, v);
  }

  /** The kept definitions depend only on which values are blocked. */
  lemma KeptAgain(b: Vocabulary, stored: map<string, string>, blocked: seq<string>, l: Listing)
    requires VocabularyOk(b) && Disjoint(blocked, Values(l))
    ensures var once := KeptDefinitions(Definitions(b, stored), blocked, l);
            KeptDefinitions(Definitions(b, once), blocked, l) == once
  {
    hide Definitions, KeptDefinitions;
    var once := KeptDefinitions(Definitions(b, stored), blocked, l);
    forall v | v in blocked ensures SameText(Definitions(b, stored), Definitions(b, once), v) {
      KeptReadsBack(b, stored, blocked, l, v);
    }
    KeptSame(Definitions(b, stored), Definitions(b, once), blocked, l);
  }

  lemma BlockedApart(b: Vocabulary, p: Property, l: Listing, used: string -> bool)
    ensures Disjoint(Keep(Current(b, p), Blocks(l, used)), Values(l))
  {
    forall v | v in Keep(Current(b, p), Blocks(l, used)) ensures v !in Values(l) {
      KeepMember(Current(b, p), Blocks(l, used), v);
    }
  }

  /** The blocked removals are the same the second time, in the same order. */
  lemma BlockedAgain(b: Vocabulary, p: Property, l: Listing, used: string -> bool)
    requires VocabularyOk(b) && ListingOk(l)
    ensures Keep(Current(b, ApplyControlled(b, p, l, used)), Blocks(l, used)) == Keep(Current(b, p), Blocks(l, used))
  {
    var after := ApplyControlled(b, p, l, used);
    var keep, blocks := Stays(l, used), Blocks(l, used);
    var extra := ExtendShape(b.builtin, Keep(p.allowed, NonEmpty()));
    var rest := FinalShape(b, p, l, used);
    CurrentAfter(b, p, l, used);
    ExtendKept(b.builtin, keep, rest);
    KeepConcat(b.builtin, extra, keep);
    KeepConcat(b.builtin, extra, blocks);
    KeepConcat(b.builtin, rest, blocks);
    RestBlocked(b.builtin, extra, l, used, rest, NotIn(Current(b, p)));
  }

  lemma RestBlocked(
    base: seq<string>, extra: seq<string>, l: Listing, used: string -> bool, rest: seq<string>, unseen: string -> bool)
    requires Keep(base + extra, Stays(l, used)) + Keep(Values(l), unseen) == Keep(base, Stays(l, used)) + rest
    ensures Keep(rest, Blocks(l, used)) == Keep(extra, Blocks(l, used))
  {
    var keep, blocks := Stays(l, used), Blocks(l, used);
    KeepConcat(base, extra, keep);
    var kept, new_ := Keep(extra, keep), Keep(Values(l), unseen);
    SameTail(Keep(base, keep), kept, new_, rest);
    KeepConcat(kept, new_, blocks);
    forall v | v in new_ ensures !blocks(v) { KeepMember(Values(l), unseen, v); }
    KeepNone(new_, blocks);
    KeepTwice(extra, keep, blocks);
  }

  lemma SameTail(a: seq<string>, b: seq<string>, c: seq<string>, rest: seq<string>)
    requires a + b + c == a + rest
    ensures rest == b + c
  {
    assert rest == (a + rest)[|a|..] && b + c == (a + b + c)[|a|..];
  }

  lemma {:induction false} KeepTwice(s: seq<string>, p: string -> bool, q: string -> bool)
    requires forall v :: q(v) ==> p(v)
    ensures Keep(Keep(s, p), q) == Keep(s, q)
  {
    if s != [] {
      KeepTwice(s[1..], p, q);
      if p(s[0]) { assert Keep(s, p)[1..] == Keep(s[1..], p); } else { assert Keep(s, p) == Keep(s[1..], p); }
    }
  }

  /** Applying the same section of the note again leaves the property as it is. */
  lemma ApplyControlledIdempotent(b: Vocabulary, p: Property, l: Listing, used: string -> bool)
    requires VocabularyOk(b) && ListingOk(l)
    ensures ApplyControlled(b, ApplyControlled(b, p, l, used), l, used) == ApplyControlled(b, p, l, used)
  {
    hide Current, Final, KeptDefinitions, Definitions;
    FinalAgain(b, p, l, used);
    BlockedAgain(b, p, l, used);
    BlockedApart(b, p, l, used);
    KeptAgain(b, p.definitions, Keep(Current(b, p), Blocks(l, used)), l);
  }

  /** What a second application reports: nothing added, edited or newly blocked; as removed, again and
      again, exactly the built-in values that the note leaves out and no note uses, because they go on
      being allowed. */
  lemma SecondReport(b: Vocabulary, p: Property, l: Listing, used: string -> bool)
    requires VocabularyOk(b) && ListingOk(l)
    ensures var again := ControlledReport(b, ApplyControlled(b, p, l, used), l, used);
            && again.added == [] && again.edited == []
            && again.blocked == ControlledReport(b, p, l, used).blocked
            && again.removed == Keep(b.builtin, Drops(l, used))
  {
    var after := ApplyControlled(b, p, l, used);
    hide ApplyControlled, Current, Final, KeptDefinitions;
    BlockedAgain(b, p, l, used);
    forall v | v in Values(l) ensures !NotIn(Current(b, after))(v) && !Edits(b, after, l)(v) {
      EffectiveValues(b, p, l, used, v);
      NotEditedAgain(b, p, l, used, v);
    }
    KeepNone(Values(l), NotIn(Current(b, after)));
    KeepNone(Values(l), Edits(b, after, l));
    DropsAgain(b, p, l, used);
  }

  lemma NotEditedAgain(b: Vocabulary, p: Property, l: Listing, used: string -> bool, v: string)
    requires v in Values(l)
    ensures !Edits(b, ApplyControlled(b, p, l, used), l)(v)
  {
    hide Current, Final;
    DefinitionTrimmed(l, v);
    StripTrimmed(DefinitionIn(l, v));
  }

  lemma DropsAgain(b: Vocabulary, p: Property, l: Listing, used: string -> bool)
    requires VocabularyOk(b) && ListingOk(l)
    ensures Keep(Current(b, ApplyControlled(b, p, l, used)), Drops(l, used)) == Keep(b.builtin, Drops(l, used))
  {
    var rest := FinalShape(b, p, l, used);
    CurrentAfter(b, p, l, used);
    ExtendKept(b.builtin, Stays(l, used), rest);
    KeepConcat(b.builtin, rest, Drops(l, used));
    KeepNone(rest, Drops(l, used));
    assert Keep(b.builtin, Drops(l, used)) + [] == Keep(b.builtin, Drops(l, used));
  }

  // ---- note types ----

  /** What the schema says of a note type: `description`, `folder` and whatever else it stores. */
  type Spec = map<string, string>

  datatype TypeVocabulary = TypeVocabulary(builtin: seq<string>, specs: map<string, Spec>)

  ghost predicate TypeVocabularyOk(b: TypeVocabulary) {
    Distinct(b.builtin) && "" !in b.builtin
  }

  /** The note types of a schema in order, what it stores for them, and the values allowed for `type`. */
  datatype Types = Types(names: seq<string>, specs: map<string, Spec>, allowed: seq<string>)

  /** `note_types_from_schema`, the names. */
  function CurrentTypes(b: TypeVocabulary, t: Types): seq<string> {
    Extend(Extend(b.builtin, Keep(t.names, NonEmpty())), Keep(t.allowed, NonEmpty()))
  }

  function Described(s: Spec): string {
    if "description" in s then Strip(s["description"]) else ""
  }

  /** `note_type_definitions_from_schema`: the built-in description wins. */
  function TypeDefinition(b: TypeVocabulary, t: Types, name: string): string {
    if name in b.builtin then (if name in b.specs then Described(b.specs[name]) else "")
    else if name in t.specs then Described(t.specs[name]) else ""
  }

  function NewSpec(b: TypeVocabulary, t: Types, l: Listing, name: string): Spec {
    var base := if name in t.specs then t.specs[name] else if name in b.specs then b.specs[name] else map[];
    var s := if DefinitionIn(l, name) != "" then base["description" := DefinitionIn(l, name)]
             else if "description" in base then base
             else base["description" := TypeDefinition(b, t, name)];
    if "folder" in s then s else s["folder" := ""]
  }

  function BlockedTypes(b: TypeVocabulary, t: Types, l: Listing, used: string -> bool): seq<string> {
    Keep(CurrentTypes(b, t), Blocks(l, used))
  }

  /** `_apply_note_types`. */
  function ApplyTypes(b: TypeVocabulary, t: Types, l: Listing, used: string -> bool): Types {
    var names := Values(l) + BlockedTypes(b, t, l, used);
    Types(names, map name | name in names :: NewSpec(b, t, l, name), [""] + names)
  }

  function TypeEdits(b: TypeVocabulary, t: Types, l: Listing): string -> bool {
    v => v in CurrentTypes(b, t) && DefinitionIn(l, v) != "" && DefinitionIn(l, v) != TypeDefinition(b, t, v)
  }

  function TypesReport(b: TypeVocabulary, t: Types, l: Listing, used: string -> bool): Report {
    Report(Keep(Values(l), NotIn(CurrentTypes(b, t))), Keep(Values(l), TypeEdits(b, t, l)),
           Keep(CurrentTypes(b, t), Drops(l, used)), BlockedTypes(b, t, l, used))
  }

  lemma TypesNonEmpty(b: TypeVocabulary, t: Types)
    requires TypeVocabularyOk(b)
    ensures "" !in CurrentTypes(b, t)
  {
    ExtendMember(Extend(b.builtin, Keep(t.names, NonEmpty())), Keep(t.allowed, NonEmpty()), "");
    ExtendMember(b.builtin, Keep(t.names, NonEmpty()), "");
    KeepMember(t.names, NonEmpty(), "");
    KeepMember(t.allowed, NonEmpty(), "");
  }

  lemma TypesAfter(b: TypeVocabulary, t: Types, l: Listing, used: string -> bool)
    requires TypeVocabularyOk(b) && ListingOk(l)
    ensures CurrentTypes(b, ApplyTypes(b, t, l, used)) == Extend(b.builtin, Values(l) + BlockedTypes(b, t, l, used))
  {
    var names := Values(l) + BlockedTypes(b, t, l, used);
    TypesNonEmpty(b, t);
    KeepMember(CurrentTypes(b, t), Blocks(l, used), "");
    hide CurrentTypes;
    KeepAll(names, NonEmpty());
    StoredBack(names);
    AllExtended(b.builtin, names);
    TypesUnfold(b, ApplyTypes(b, t, l, used));
  }

  lemma TypesUnfold(b: TypeVocabulary, t: Types)
    ensures CurrentTypes(b, t) == Extend(Extend(b.builtin, Keep(t.names, NonEmpty())), Keep(t.allowed, NonEmpty()))
  {
  }

  lemma AllExtended(base: seq<string>, names: seq<string>)
    ensures Extend(Extend(base, names), names) == Extend(base, names)
  {
    forall v | v in names ensures v in Extend(base, names) { ExtendMember(base, names, v); }
    ExtendInside(Extend(base, names), names);
  }

  /** The effective note types afterwards are exactly the built-in ones, those of the note, and those
      whose removal was blocked; in particular no type that a note uses is dropped. */
  lemma EffectiveTypes(b: TypeVocabulary, t: Types, l: Listing, used: string -> bool, v: string)
    requires TypeVocabularyOk(b) && ListingOk(l)
    ensures v in CurrentTypes(b, ApplyTypes(b, t, l, used)) <==>
              v in b.builtin || v in Values(l) || v in TypesReport(b, t, l, used).blocked
    ensures v in CurrentTypes(b, t) && used(v) ==> v in CurrentTypes(b, ApplyTypes(b, t, l, used))
  {
    TypesAfter(b, t, l, used);
    hide CurrentTypes, ApplyTypes;
    ExtendMember(b.builtin, Values(l) + BlockedTypes(b, t, l, used), v);
    KeepMember(CurrentTypes(b, t), Blocks(l, used), v);
  }

  lemma TypesShape(b: TypeVocabulary, t: Types) returns (extra: seq<string>)
    requires TypeVocabularyOk(b)
    ensures CurrentTypes(b, t) == b.builtin + extra && Distinct(extra) && Disjoint(extra, b.builtin)
  {
    var e1 := ExtendShape(b.builtin, Keep(t.names, NonEmpty()));
    var e2 := ExtendShape(b.builtin + e1, Keep(t.allowed, NonEmpty()));
    extra := e1 + e2;
    assert b.builtin + e1 + e2 == b.builtin + extra;
    DistinctTail(b.builtin, extra);
  }

  /** Extending by listed values, then by some of the base, then by values new to both. */
  lemma ExtendThrice(base: seq<string>, listed: seq<string>, kb: seq<string>, ke: seq<string>) returns (new_: seq<string>)
    requires Distinct(base) && Distinct(ke) && Disjoint(ke, base) && Disjoint(ke, listed)
    requires forall v | v in kb :: v in base
    ensures Extend(base, listed + (kb + ke)) == base + new_ + ke && forall v | v in new_ :: v in listed
  {
    new_ := ExtendShape(base, listed);
    ExtendConcat(base, listed, kb + ke);
    ExtendConcat(base + new_, kb, ke);
    ExtendInside(base + new_, kb);
    ExtendFresh(base + new_, ke);
  }

  /** Extending by the listed values and then by blocked ones: the blocked ones come last, in order. */
  lemma ExtendBlocked(base: seq<string>, l: Listing, used: string -> bool, extra: seq<string>)
    requires Distinct(base) && Distinct(extra) && Disjoint(extra, base)
    ensures var blocks := Blocks(l, used);
            Keep(Extend(base, Values(l) + Keep(base + extra, blocks)), blocks) == Keep(base + extra, blocks)
  {
    var blocks := Blocks(l, used);
    KeepConcat(base, extra, blocks);
    var kb, ke := Keep(base, blocks), Keep(extra, blocks);
    KeepDistinct(extra, blocks);
    forall v ensures v in kb <==> v in base && blocks(v) { KeepMember(base, blocks, v); }
    forall v ensures v in ke <==> v in extra && blocks(v) { KeepMember(extra, blocks, v); }
    var new_ := ExtendThrice(base, Values(l), kb, ke);
    assert forall v | v in new_ :: !blocks(v);
    assert forall v | v in ke :: blocks(v);
    hide *;
    BlockedLast(base, new_, ke, blocks);
  }

  lemma BlockedLast(base: seq<string>, new_: seq<string>, ke: seq<string>, blocks: string -> bool)
    requires (forall v | v in new_ :: !blocks(v)) && forall v | v in ke :: blocks(v)
    ensures Keep(base + new_ + ke, blocks) == Keep(base, blocks) + ke
  {
    KeepConcat(base + new_, ke, blocks);
    KeepConcat(base, new_, blocks);
    KeepNone(new_, blocks);
    KeepAll(ke, blocks);
    assert Keep(base, blocks) + [] == Keep(base, blocks);
  }

  lemma BlockedTypesAgain(b: TypeVocabulary, t: Types, l: Listing, used: string -> bool)
    requires TypeVocabularyOk(b) && ListingOk(l)
    ensures BlockedTypes(b, ApplyTypes(b, t, l, used), l, used) == BlockedTypes(b, t, l, used)
  {
    hide CurrentTypes, ApplyTypes;
    var extra := TypesShape(b, t);
    TypesAfter(b, t, l, used);
    ExtendBlocked(b.builtin, l, used, extra);
  }

  /** Applying the note types of the note again leaves them as they are. */
  lemma ApplyTypesIdempotent(b: TypeVocabulary, t: Types, l: Listing, used: string -> bool)
    requires TypeVocabularyOk(b) && ListingOk(l)
    ensures ApplyTypes(b, ApplyTypes(b, t, l, used), l, used) == ApplyTypes(b, t, l, used)
  {
    hide CurrentTypes, BlockedTypes, DefinitionIn, NewSpec, ListingOk, TypeVocabularyOk, Values;
    BlockedTypesAgain(b, t, l, used);
    var once := ApplyTypes(b, t, l, used);
    forall name | name in once.names ensures NewSpec(b, once, l, name) == once.specs[name] {
      SpecAgain(b, t, once, l, name);
    }
  }

  lemma SpecAgain(b: TypeVocabulary, t: Types, once: Types, l: Listing, name: string)
    requires name in once.specs && once.specs[name] == NewSpec(b, t, l, name)
    ensures NewSpec(b, once, l, name) == once.specs[name]
  {
    hide DefinitionIn, TypeDefinition;
    var s := once.specs[name];
    if DefinitionIn(l, name) != "" { assert s["description" := DefinitionIn(l, name)] == s; }
  }

  /** The built-in types the note describes in other words than the built-in ones. */
  function Overridden(b: TypeVocabulary, l: Listing): string -> bool {
    v => v in b.builtin && DefinitionIn(l, v) != "" && DefinitionIn(l, v) != (if v in b.specs then Described(b.specs[v]) else "")
  }

  /** What a second application reports: as edited, again and again, exactly the built-in types the
      note describes differently, because the built-in description goes on winning; as removed the
      built-in types it leaves out; nothing else. */
  lemma SecondTypesReport(b: TypeVocabulary, t: Types, l: Listing, used: string -> bool)
    requires TypeVocabularyOk(b) && ListingOk(l)
    ensures var again := TypesReport(b, ApplyTypes(b, t, l, used), l, used);
            && again.added == [] && again.edited == Keep(Values(l), Overridden(b, l))
            && again.blocked == TypesReport(b, t, l, used).blocked && again.removed == Keep(b.builtin, Drops(l, used))
  {
    var after := ApplyTypes(b, t, l, used);
    BlockedTypesAgain(b, t, l, used);
    TypesDropped(b, t, l, used);
    hide CurrentTypes, BlockedTypes;
    forall v | v in Values(l) ensures !NotIn(CurrentTypes(b, after))(v) && TypeEdits(b, after, l)(v) == Overridden(b, l)(v) {
      EffectiveTypes(b, t, l, used, v);
      StoredDescription(b, t, l, used, v);
    }
    KeepNone(Values(l), NotIn(CurrentTypes(b, after)));
    KeepSame(Values(l), TypeEdits(b, after, l), Overridden(b, l));
  }

  lemma StoredDescription(b: TypeVocabulary, t: Types, l: Listing, used: string -> bool, v: string)
    requires v in Values(l)
    ensures v !in b.builtin && DefinitionIn(l, v) != "" ==>
              TypeDefinition(b, ApplyTypes(b, t, l, used), v) == DefinitionIn(l, v)
  {
    hide BlockedTypes, DefinitionIn;
    DefinitionTrimmed(l, v);
    StripTrimmed(DefinitionIn(l, v));
    hide Strip;
  }

  lemma TypesDropped(b: TypeVocabulary, t: Types, l: Listing, used: string -> bool)
    requires TypeVocabularyOk(b) && ListingOk(l)
    ensures Keep(CurrentTypes(b, ApplyTypes(b, t, l, used)), Drops(l, used)) == Keep(b.builtin, Drops(l, used))
  {
    var drops := Drops(l, used);
    TypesAfter(b, t, l, used);
    hide CurrentTypes, ApplyTypes;
    var more := Values(l) + BlockedTypes(b, t, l, used);
    var extra := ExtendShape(b.builtin, more);
    forall v | v in extra ensures !drops(v) {
      if v !in Values(l) {
        assert v in BlockedTypes(b, t, l, used);
        KeepMember(CurrentTypes(b, t), Blocks(l, used), v);
      }
    }
    KeepConcat(b.builtin, extra, drops);
    KeepNone(extra, drops);
    assert Keep(b.builtin, drops) + [] == Keep(b.builtin, drops);
  }

  // ---- topic hubs ----

  /** `dict(pairs)`: the last definition of a value wins, in the place of the first. */
  function AsDict(l: Listing): Listing {
    if l == [] then []
    else
      var before := AsDict(l[..|l| - 1]);
      var (name, text) := l[|l| - 1];
      if name in Values(before) then Replaced(before, name, text) else before + [(name, text)]
  }

  function Replaced(l: Listing, name: string, text: string): (r: Listing)
    ensures Values(r) == Values(l)
  {
    seq(|l|, i requires 0 <= i < |l| => if l[i].0 == name then (name, text) else l[i])
  }

  /** `hub_descriptions_for`: named hubs, the first of each name, stripped. */
  function CurrentHubs(hubs: Listing): Listing {
    if hubs == [] then []
    else
      var before := CurrentHubs(hubs[..|hubs| - 1]);
      var name := Strip(hubs[|hubs| - 1].0);
      if name == "" || name in Values(before) then before else before + [(name, Strip(hubs[|hubs| - 1].1))]
  }

  function KeepHubs(l: Listing, keep: string -> bool): Listing {
    if l == [] then [] else (if keep(l[0].0) then [l[0]] else []) + KeepHubs(l[1..], keep)
  }

  /** The hubs of one domain after the note's list has been applied: the note's, then those that it
      leaves out but a note still points to. */
  function ApplyDomainHubs(hubs: Listing, l: Listing, used: string -> bool): Listing {
    AsDict(l) + KeepHubs(CurrentHubs(hubs), Blocks(AsDict(l), used))
  }

  /** The note redescribes a hub the domain already had. */
  function HubEdits(cur: Listing, d: Listing): string -> bool {
    v => v in Values(cur) && DefinitionIn(d, v) != "" && DefinitionIn(d, v) != DefinitionIn(cur, v)
  }

  function DomainHubsReport(hubs: Listing, l: Listing, used: string -> bool): Report {
    var cur, d := CurrentHubs(hubs), AsDict(l);
    Report(Keep(Values(d), NotIn(Values(cur))), Keep(Values(d), HubEdits(cur, d)),
           Keep(Values(cur), Drops(d, used)), Keep(Values(cur), Blocks(d, used)))
  }

  /** Hub names as the parser returns them. */
  ghost predicate HubListOk(l: Listing) {
    forall i | 0 <= i < |l| :: l[i].0 != "" && Trimmed(l[i].0)
  }

  lemma {:induction false} AsDictDistinct(l: Listing)
    ensures Distinct(Values(AsDict(l)))
    ensures forall v | v in Values(AsDict(l)) :: v in Values(l)
    ensures forall v | v in Values(l) :: v in Values(AsDict(l))
  {
    if l != [] {
      var before := AsDict(l[..|l| - 1]);
      AsDictDistinct(l[..|l| - 1]);
      var last := l[|l| - 1];
      assert Values(l) == Values(l[..|l| - 1]) + [last.0];
      assert Values(before + [last]) == Values(before) + [last.0];
    }
  }

  ghost predicate HubsClean(l: Listing) {
    HubListOk(l) && forall i | 0 <= i < |l| :: Trimmed(l[i].1)
  }

  lemma {:induction false} CurrentHubsNamed(hubs: Listing)
    ensures Distinct(Values(CurrentHubs(hubs))) && HubsClean(CurrentHubs(hubs))
  {
    if hubs != [] {
      var before := CurrentHubs(hubs[..|hubs| - 1]);
      CurrentHubsNamed(hubs[..|hubs| - 1]);
      var last := (Strip(hubs[|hubs| - 1].0), Strip(hubs[|hubs| - 1].1));
      StripIsTrimmed(hubs[|hubs| - 1].0);
      StripIsTrimmed(hubs[|hubs| - 1].1);
      hide Strip, Trimmed, HubsClean, Distinct;
      if last.0 != "" && last.0 !in Values(before) { AppendClean(before, last); }
    }
  }

  lemma AppendClean(l: Listing, last: (string, string))
    requires Distinct(Values(l)) && HubsClean(l) && last.0 !in Values(l) && last.0 != ""
    requires Trimmed(last.0) && Trimmed(last.1)
    ensures Distinct(Values(l + [last])) && HubsClean(l + [last])
  {
    hide Trimmed;
    ValuesConcat(l, [last]);
    assert Values([last]) == [last.0];
  }

  lemma {:induction false} KeepHubsValues(l: Listing, keep: string -> bool)
    ensures Values(KeepHubs(l, keep)) == Keep(Values(l), keep)
    ensures forall i | 0 <= i < |KeepHubs(l, keep)| :: KeepHubs(l, keep)[i] in l
  {
    if l != [] {
      KeepHubsValues(l[1..], keep);
      assert Values(l)[1..] == Values(l[1..]);
    }
  }

  function Stripped(l: Listing): (r: Listing)
    ensures Values(r) == Values(l)
  {
    seq(|l|, i requires 0 <= i < |l| => (l[i].0, Strip(l[i].1)))
  }

  lemma CurrentHubsSnoc(m: Listing, name: string, text: string)
    requires Strip(name) == name && name != "" && name !in Values(CurrentHubs(m))
    ensures CurrentHubs(m + [(name, text)]) == CurrentHubs(m) + [(name, Strip(text))]
  {
    hide Strip;
    assert (m + [(name, text)])[..|m|] == m;
  }

  lemma StrippedSnoc(m: Listing, name: string, text: string)
    ensures Stripped(m + [(name, text)]) == Stripped(m) + [(name, Strip(text))]
  {
    hide Strip;
  }

  lemma HubFront(l: Listing)
    requires l != [] && Distinct(Values(l)) && HubListOk(l)
    ensures var m, last := l[..|l| - 1], l[|l| - 1];
            && l == m + [(last.0, last.1)] && Distinct(Values(m)) && HubListOk(m)
            && last.0 !in Values(m) && last.0 != "" && Strip(last.0) == last.0
  {
    var m, last := l[..|l| - 1], l[|l| - 1];
    StripTrimmed(last.0);
    hide Strip, Trimmed;
    assert Values(m) == Values(l)[..|m|] && Values(l)[|m|] == last.0;
  }

  lemma NoHubs()
    ensures CurrentHubs([]) == [] && Stripped([]) == []
  {
  }

  /** Names already stripped, distinct and not empty are read back as they are, descriptions stripped. */
  lemma {:induction false} HubsReadBack(l: Listing)
    requires Distinct(Values(l)) && HubListOk(l)
    ensures CurrentHubs(l) == Stripped(l)
  {
    hide *;
    if l == [] {
      NoHubs();
    } else {
      var m, last := l[..|l| - 1], l[|l| - 1];
      HubFront(l);
      HubsReadBack(m);
      StrippedValues(m);
      CurrentHubsSnoc(m, last.0, last.1);
      StrippedSnoc(m, last.0, last.1);
    }
  }

  lemma StrippedValues(l: Listing)
    ensures Values(Stripped(l)) == Values(l)
  {
  }

  lemma ValuesConcat(a: Listing, b: Listing)
    ensures Values(a + b) == Values(a) + Values(b)
  {
  }

  lemma HubsDistinct(hubs: Listing, l: Listing, used: string -> bool)
    requires HubListOk(l)
    ensures Distinct(Values(ApplyDomainHubs(hubs, l, used))) && HubListOk(ApplyDomainHubs(hubs, l, used))
  {
    var d := AsDict(l);
    var cur := CurrentHubs(hubs);
    var blocks := Blocks(d, used);
    AsDictDistinct(l);
    CurrentHubsNamed(hubs);
    KeepHubsValues(cur, blocks);
    KeepDistinct(Values(cur), blocks);
    ValuesConcat(d, KeepHubs(cur, blocks));
    forall v | v in Keep(Values(cur), blocks) ensures v !in Values(d) { KeepMember(Values(cur), blocks, v); }
    DistinctConcat(Values(d), Keep(Values(cur), blocks));
    hide CurrentHubs, KeepHubs, Distinct, AsDict;
    HubNamesOk(l, d, KeepHubs(cur, blocks), cur);
  }

  lemma HubNamesOk(l: Listing, d: Listing, kept: Listing, cur: Listing)
    requires HubListOk(l) && (forall v | v in Values(d) :: v in Values(l)) && HubListOk(cur)
    requires forall i | 0 <= i < |kept| :: kept[i] in cur
    ensures HubListOk(d + kept)
  {
    hide Trimmed;
    forall i | 0 <= i < |d| ensures d[i].0 != "" && Trimmed(d[i].0) {
      assert Values(d)[i] in Values(l);
      var j :| 0 <= j < |l| && Values(l)[j] == d[i].0;
      assert l[j].0 == d[i].0;
    }
    forall i | 0 <= i < |kept| ensures kept[i].0 != "" && Trimmed(kept[i].0) {
      var j :| 0 <= j < |cur| && cur[j] == kept[i];
    }
  }

  /** The hubs of a domain afterwards are exactly those of the note and the blocked ones, so no hub that
      a note points to is dropped. */
  lemma EffectiveHubs(hubs: Listing, l: Listing, used: string -> bool, v: string)
    requires HubListOk(l)
    ensures v in Values(CurrentHubs(ApplyDomainHubs(hubs, l, used))) <==>
              v in Values(l) || (v in Values(CurrentHubs(hubs)) && used(v))
  {
    var d := AsDict(l);
    HubsDistinct(hubs, l, used);
    HubsReadBack(ApplyDomainHubs(hubs, l, used));
    hide CurrentHubs, KeepHubs, AsDict, Stripped;
    AsDictDistinct(l);
    KeepHubsValues(CurrentHubs(hubs), Blocks(d, used));
    ValuesConcat(d, KeepHubs(CurrentHubs(hubs), Blocks(d, used)));
    KeepMember(Values(CurrentHubs(hubs)), Blocks(d, used), v);
  }

  lemma {:induction false} KeepHubsConcat(a: Listing, b: Listing, keep: string -> bool)
    ensures KeepHubs(a + b, keep) == KeepHubs(a, keep) + KeepHubs(b, keep)
  {
    if a == [] {
      assert a + b == b;
    } else {
      KeepHubsConcat(a[1..], b, keep);
      assert a + b == [a[0]] + (a[1..] + b);
      KeepHubsCons(a[0], a[1..] + b, keep);
      KeepHubsCons(a[0], a[1..], keep);
      assert [a[0]] + a[1..] == a;
    }
  }

  lemma KeepHubsCons(x: (string, string), rest: Listing, keep: string -> bool)
    ensures KeepHubs([x] + rest, keep) == (if keep(x.0) then [x] else []) + KeepHubs(rest, keep)
  {
    assert ([x] + rest)[1..] == rest;
  }

  lemma {:induction false} KeepHubsAll(l: Listing, keep: string -> bool)
    requires forall i | 0 <= i < |l| :: keep(l[i].0)
    ensures KeepHubs(l, keep) == l
  {
    if l != [] { KeepHubsAll(l[1..], keep); }
  }

  lemma {:induction false} KeepHubsNone(l: Listing, keep: string -> bool)
    requires forall i | 0 <= i < |l| :: !keep(l[i].0)
    ensures KeepHubs(l, keep) == []
  {
    if l != [] { KeepHubsNone(l[1..], keep); }
  }

  /** Applying the note's hubs of a domain again leaves them as they are. */
  lemma ApplyHubsIdempotent(hubs: Listing, l: Listing, used: string -> bool)
    requires HubListOk(l)
    ensures ApplyDomainHubs(ApplyDomainHubs(hubs, l, used), l, used) == ApplyDomainHubs(hubs, l, used)
  {
    var d := AsDict(l);
    var cur := CurrentHubs(hubs);
    var kept := KeepHubs(cur, Blocks(d, used));
    HubsDistinct(hubs, l, used);
    HubsReadBack(d + kept);
    CurrentHubsNamed(hubs);
    KeepHubsValues(cur, Blocks(d, used));
    hide CurrentHubs, AsDict, KeepHubs, HubListOk;
    KeptStripped(cur, kept);
    assert Stripped(d + kept) == Stripped(d) + Stripped(kept);
    KeptAgainHubs(d, cur, kept, used);
  }

  lemma KeptAgainHubs(d: Listing, cur: Listing, kept: Listing, used: string -> bool)
    requires Values(kept) == Keep(Values(cur), Blocks(d, used))
    ensures KeepHubs(Stripped(d) + kept, Blocks(d, used)) == kept
  {
    var blocks := Blocks(d, used);
    KeepHubsConcat(Stripped(d), kept, blocks);
    forall i | 0 <= i < |d| ensures !blocks(Stripped(d)[i].0) { assert Values(Stripped(d))[i] == Values(d)[i]; }
    KeepHubsNone(Stripped(d), blocks);
    forall i | 0 <= i < |kept| ensures blocks(kept[i].0) {
      assert Values(kept)[i] in Keep(Values(cur), blocks);
      KeepMember(Values(cur), blocks, kept[i].0);
    }
    KeepHubsAll(kept, blocks);
  }

  lemma KeptStripped(cur: Listing, kept: Listing)
    requires HubsClean(cur) && forall i | 0 <= i < |kept| :: kept[i] in cur
    ensures Stripped(kept) == kept
  {
    forall i | 0 <= i < |kept| ensures Stripped(kept)[i] == kept[i] {
      var j :| 0 <= j < |cur| && cur[j] == kept[i];
      StripTrimmed(cur[j].1);
    }
  }

  // ---- declared properties ----

  /** The custom properties of a schema in order, which of them hold lists, and the stored definitions. */
  datatype Properties = Properties(names: seq<string>, lists: set<string>, definitions: map<string, string>)

  /** `_apply_properties`, for a note that declares the properties of `l`, those in `lists` as lists. */
  function ApplyProperties(b: Vocabulary, p: Properties, l: Listing, lists: set<string>, used: string -> bool): Properties {
    var names := Keep(p.names, Stays(l, used)) + Keep(Values(l), NotIn(b.builtin + p.names));
    Properties(names,
               (set n | n in names && (if n in Values(l) then n in lists else n in p.lists)),
               KeptDefinitions(Definitions(b, p.definitions), Keep(p.names, Blocks(l, used)), l))
  }

  /** The note redefines a property that was already declared. */
  function PropertyEdits(b: Vocabulary, p: Properties, l: Listing): string -> bool {
    var defs := Definitions(b, p.definitions);
    v => v in b.builtin + p.names && DefinitionIn(l, v) != "" && DefinitionIn(l, v) != (if v in defs then Strip(defs[v]) else "")
  }

  function PropertiesReport(b: Vocabulary, p: Properties, l: Listing, used: string -> bool): Report {
    Report(Keep(Values(l), NotIn(b.builtin + p.names)), Keep(Values(l), PropertyEdits(b, p, l)),
           Keep(p.names, Drops(l, used)), Keep(p.names, Blocks(l, used)))
  }

  lemma PropertyNames(b: Vocabulary, p: Properties, l: Listing, lists: set<string>, used: string -> bool, v: string)
    ensures v in ApplyProperties(b, p, l, lists, used).names <==>
              (v in p.names && (v in Values(l) || used(v))) || (v in Values(l) && v !in b.builtin && v !in p.names)
  {
    KeepMember(p.names, Stays(l, used), v);
    KeepMember(Values(l), NotIn(b.builtin + p.names), v);
  }

  /** The accepted properties afterwards are the built-in ones, those of the note, and those it leaves out
      but a note still carries; so no property in use is dropped. */
  lemma EffectiveProperties(b: Vocabulary, p: Properties, l: Listing, lists: set<string>, used: string -> bool, v: string)
    ensures v in b.builtin + ApplyProperties(b, p, l, lists, used).names <==>
              v in b.builtin || v in Values(l) || (v in p.names && used(v))
  {
    PropertyNames(b, p, l, lists, used, v);
  }

  /** Applying the declared properties of the note again leaves them as they are. */
  lemma ApplyPropertiesIdempotent(b: Vocabulary, p: Properties, l: Listing, lists: set<string>, used: string -> bool)
    requires VocabularyOk(b)
    ensures var once := ApplyProperties(b, p, l, lists, used);
            ApplyProperties(b, once, l, lists, used) == once
  {
    var once := ApplyProperties(b, p, l, lists, used);
    var keep, blocks, unseen := Stays(l, used), Blocks(l, used), NotIn(b.builtin + p.names);
    var kept, new_ := Keep(p.names, keep), Keep(Values(l), unseen);
    forall v ensures v in once.names <==> (v in p.names && keep(v)) || (v in Values(l) && v !in b.builtin && v !in p.names) {
      PropertyNames(b, p, l, lists, used, v);
    }
    KeepAll(once.names, keep);
    KeepNone(Values(l), NotIn(b.builtin + once.names));
    assert Keep(once.names, keep) + [] == once.names;
    forall v | v in new_ ensures !blocks(v) { KeepMember(Values(l), unseen, v); }
    KeepConcat(kept, new_, blocks);
    KeepTwice(p.names, keep, blocks);
    KeepNone(new_, blocks);
    assert Keep(once.names, blocks) == Keep(p.names, blocks);
    forall v | v in Keep(p.names, blocks) ensures v !in Values(l) { KeepMember(p.names, blocks, v); }
    KeptAgain(b, p.definitions, Keep(p.names, blocks), l);
  }

  // ---- the whole note ----

  datatype Builtins = Builtins(types: TypeVocabulary, values: Field -> Vocabulary, properties: Vocabulary)

  ghost predicate BuiltinsOk(b: Builtins) {
    TypeVocabularyOk(b.types) && VocabularyOk(b.properties) && forall f: Field :: VocabularyOk(b.values(f))
  }

  datatype Schema = Schema(
    types: Types, values: map<Field, Property>, hubs: map<string, Listing>, properties: Properties,
    dashboards: seq<(string, string)>)
  {
    /** What is stored for a controlled property; nothing when the schema lacks it. */
    function Stored(f: Field): Property {
      if f in values then values[f] else Property([], map[])
    }
  }

  /** The parsed note. */
  datatype Parsed = Parsed(
    types: Listing, values: Field -> Listing, hubs: map<string, Listing>, properties: Listing, lists: set<string>,
    dashboards: seq<(string, string)>)

  ghost predicate ParsedOk(n: Parsed) {
    && ListingOk(n.types) && ListingOk(n.properties) && (forall f: Field :: ListingOk(n.values(f)))
    && forall d | d in n.hubs :: HubListOk(n.hubs[d])
  }

  function Uses(entries: seq<Entry>, key: string): string -> bool {
    v => InUse(entries, key, v)
  }

  function PointsTo(entries: seq<Entry>): string -> bool {
    v => HubInUse(entries, v)
  }

  function CarriedBy(entries: seq<Entry>): string -> bool {
    v => PropertyInUse(entries, v)
  }

  function HubsOf(registry: map<string, Listing>, domain: string): Listing {
    if domain in registry then registry[domain] else []
  }

  /** The reports of `_apply_hubs`, by domain. */
  function HubsReports(registry: map<string, Listing>, noted: map<string, Listing>, used: string -> bool): map<string, Report> {
    map d | d in registry.Keys + noted.Keys :: DomainHubsReport(HubsOf(registry, d), HubsOf(noted, d), used)
  }

  /** `_apply_hubs`. */
  function ApplyHubs(registry: map<string, Listing>, noted: map<string, Listing>, used: string -> bool): map<string, Listing> {
    map d | d in registry.Keys + noted.Keys && ApplyDomainHubs(HubsOf(registry, d), HubsOf(noted, d), used) != []
      :: ApplyDomainHubs(HubsOf(registry, d), HubsOf(noted, d), used)
  }

  function SyncField(b: Builtins, s: Schema, n: Parsed, entries: seq<Entry>, f: Field): Property {
    ApplyControlled(b.values(f), s.Stored(f), n.values(f), Uses(entries, Key(f)))
  }

  /** `sync_schema_from_note`, the schema it writes. */
  function Sync(b: Builtins, s: Schema, n: Parsed, entries: seq<Entry>): Schema {
    Schema(
      ApplyTypes(b.types, s.types, n.types, Uses(entries, "type")),
      map f: Field :: SyncField(b, s, n, entries, f),
      ApplyHubs(s.hubs, n.hubs, PointsTo(entries)),
      if n.properties == [] then s.properties
      else ApplyProperties(b.properties, s.properties, n.properties, n.lists, CarriedBy(entries)),
      n.dashboards)
  }

  function PropertiesReported(b: Builtins, s: Schema, n: Parsed, entries: seq<Entry>): Report {
    if n.properties == [] then NOTHING else PropertiesReport(b.properties, s.properties, n.properties, CarriedBy(entries))
  }

  /** Some dashboard request is new, or some is gone. */
  predicate DashboardsChanged(before: seq<(string, string)>, after: seq<(string, string)>) {
    (exists p | p in after :: p !in before) || (exists p | p in before :: p !in after)
  }

  /** `result.changed` of `sync_schema_from_note`. */
  predicate Changed(b: Builtins, s: Schema, n: Parsed, entries: seq<Entry>) {
    || Changes(TypesReport(b.types, s.types, n.types, Uses(entries, "type")))
    || (exists f: Field :: Changes(FieldReport(b, s, n, entries, f)))
    || (exists d | d in s.hubs.Keys + n.hubs.Keys ::
          Changes(DomainHubsReport(HubsOf(s.hubs, d), HubsOf(n.hubs, d), PointsTo(entries))))
    || Changes(PropertiesReported(b, s, n, entries))
    || DashboardsChanged(s.dashboards, n.dashboards)
  }

  function FieldReport(b: Builtins, s: Schema, n: Parsed, entries: seq<Entry>, f: Field): Report {
    ControlledReport(b.values(f), s.Stored(f), n.values(f), Uses(entries, Key(f)))
  }

  lemma ApplyAllHubsIdempotent(registry: map<string, Listing>, noted: map<string, Listing>, used: string -> bool)
    requires forall d | d in noted :: HubListOk(noted[d])
    ensures ApplyHubs(ApplyHubs(registry, noted, used), noted, used) == ApplyHubs(registry, noted, used)
  {
    hide ApplyDomainHubs, HubListOk;
    var once := ApplyHubs(registry, noted, used);
    forall d: string
      ensures ApplyDomainHubs(HubsOf(once, d), HubsOf(noted, d), used) == ApplyDomainHubs(HubsOf(registry, d), HubsOf(noted, d), used)
    {
      assert HubListOk(HubsOf(noted, d)) by { NoHubsOk(); }
      ApplyHubsIdempotent(HubsOf(registry, d), HubsOf(noted, d), used);
      NoHubsEither(HubsOf(noted, d), used);
      if d !in registry.Keys + noted.Keys { NoHubsEither([], used); }
    }
  }

  lemma NoHubsOk()
    ensures HubListOk([])
  {
  }

  lemma NoHubsEither(l: Listing, used: string -> bool)
    ensures l == [] ==> ApplyDomainHubs([], l, used) == []
  {
  }

  /** Syncing the same note against the same vault again leaves the schema exactly as it is. */
  lemma SyncIdempotent(b: Builtins, s: Schema, n: Parsed, entries: seq<Entry>)
    requires BuiltinsOk(b) && ParsedOk(n)
    ensures Sync(b, Sync(b, s, n, entries), n, entries) == Sync(b, s, n, entries)
  {
    hide TypeVocabularyOk, VocabularyOk, ListingOk, HubListOk, ApplyTypes, ApplyControlled, ApplyHubs, ApplyProperties;
    var once := Sync(b, s, n, entries);
    ApplyTypesIdempotent(b.types, s.types, n.types, Uses(entries, "type"));
    forall f: Field ensures SyncField(b, once, n, entries, f) == once.values[f] {
      ApplyControlledIdempotent(b.values(f), s.Stored(f), n.values(f), Uses(entries, Key(f)));
    }
    ApplyAllHubsIdempotent(s.hubs, n.hubs, PointsTo(entries));
    ApplyPropertiesIdempotent(b.properties, s.properties, n.properties, n.lists, CarriedBy(entries));
  }

  /** Everything a schema allows: note types, controlled values, hubs of a domain, properties. */
  datatype Item = TypeItem(name: string) | ValueItem(f: Field, name: string) | HubItem(domain: string, name: string)
                | PropertyItem(name: string)

  predicate Allows(b: Builtins, s: Schema, i: Item) {
    match i
    case TypeItem(v) => v in CurrentTypes(b.types, s.types)
    case ValueItem(f, v) => v in Current(b.values(f), s.Stored(f))
    case HubItem(d, v) => v in Values(CurrentHubs(HubsOf(s.hubs, d)))
    case PropertyItem(v) => v in b.properties.builtin + s.properties.names
  }

  /** A scanned note uses the item. */
  predicate Used(entries: seq<Entry>, i: Item) {
    match i
    case TypeItem(v) => InUse(entries, "type", v)
    case ValueItem(f, v) => InUse(entries, Key(f), v)
    case HubItem(_, v) => HubInUse(entries, v)
    case PropertyItem(v) => PropertyInUse(entries, v)
  }

  predicate Noted(n: Parsed, i: Item) {
    match i
    case TypeItem(v) => v in Values(n.types)
    case ValueItem(f, v) => v in Values(n.values(f))
    case HubItem(d, v) => v in Values(HubsOf(n.hubs, d))
    case PropertyItem(v) => v in Values(n.properties)
  }

  predicate BuiltIn(b: Builtins, i: Item) {
    match i
    case TypeItem(v) => v in b.types.builtin
    case ValueItem(f, v) => v in b.values(f).builtin
    case HubItem(_, _) => false
    case PropertyItem(v) => v in b.properties.builtin
  }

  /** What a sync leaves allowed, exactly: what is built in, what the note lists, and what was allowed and
      is still used. A note without a properties section changes no property. */
  lemma SyncAllowsExactly(b: Builtins, s: Schema, n: Parsed, entries: seq<Entry>, i: Item)
    requires BuiltinsOk(b) && ParsedOk(n)
    ensures i.PropertyItem? && n.properties == [] ==> (Allows(b, Sync(b, s, n, entries), i) <==> Allows(b, s, i))
    ensures !(i.PropertyItem? && n.properties == []) ==>
              (Allows(b, Sync(b, s, n, entries), i) <==> BuiltIn(b, i) || Noted(n, i) || (Allows(b, s, i) && Used(entries, i)))
  {
    hide InUse, HubInUse, PropertyInUse, CurrentTypes, ApplyTypes, ApplyControlled, ApplyProperties, ApplyHubs, Current;
    match i
    case TypeItem(v) =>
      EffectiveTypes(b.types, s.types, n.types, Uses(entries, "type"), v);
      KeepMember(CurrentTypes(b.types, s.types), Blocks(n.types, Uses(entries, "type")), v);
    case ValueItem(f, v) => ControlledExactly(b.values(f), s.Stored(f), n.values(f), Uses(entries, Key(f)), v);
    case HubItem(d, v) => HubsExactly(s.hubs, n.hubs, PointsTo(entries), d, v);
    case PropertyItem(v) =>
      EffectiveProperties(b.properties, s.properties, n.properties, n.lists, CarriedBy(entries), v);
  }

  lemma ControlledExactly(b: Vocabulary, p: Property, l: Listing, used: string -> bool, v: string)
    requires VocabularyOk(b) && ListingOk(l)
    ensures v in Current(b, ApplyControlled(b, p, l, used)) <==>
              v in b.builtin || v in Values(l) || (v in Current(b, p) && used(v))
  {
    EffectiveValues(b, p, l, used, v);
    KeepMember(Current(b, p), Blocks(l, used), v);
  }

  lemma HubsExactly(registry: map<string, Listing>, noted: map<string, Listing>, used: string -> bool, d: string, v: string)
    requires forall k | k in noted :: HubListOk(noted[k])
    ensures v in Values(CurrentHubs(HubsOf(ApplyHubs(registry, noted, used), d))) <==>
              v in Values(HubsOf(noted, d)) || (v in Values(CurrentHubs(HubsOf(registry, d))) && used(v))
  {
    NoHubsOk();
    hide ApplyDomainHubs, HubListOk;
    EffectiveHubs(HubsOf(registry, d), HubsOf(noted, d), used, v);
    NoHubsEither([], used);
    assert CurrentHubs([]) == [];
  }

  /** Nothing that was allowed and that a scanned note uses is ever dropped by a sync. */
  lemma SyncSafe(b: Builtins, s: Schema, n: Parsed, entries: seq<Entry>, i: Item)
    requires BuiltinsOk(b) && ParsedOk(n) && Allows(b, s, i) && Used(entries, i)
    ensures Allows(b, Sync(b, s, n, entries), i)
  {
    hide Allows, Used, Sync, Noted, BuiltIn, ParsedOk, BuiltinsOk;
    SyncAllowsExactly(b, s, n, entries, i);
  }

  // ---- one call, with the hash that spares an unchanged note ----

  /** What stays the same: the built-in values, the hash of a text, and what the parser makes of a text. */
  datatype Setting = Setting(builtins: Builtins, digest: string -> string, parse: string -> Parsed)

  /** What is kept between calls: the stored schema, and the hash of the note as it was last ingested. */
  datatype Memory = Memory(schema: Schema, recorded: Option<string>)

  /** What a call finds: the text of the schema note, if there is one, the scanned notes, and whether it
      may write. */
  datatype Event = Event(note: Option<string>, entries: seq<Entry>, write: bool)

  /** `Ingested` tells whether the reports count as a change. */
  datatype Outcome = Missing | Unchanged | Ingested(changed: bool)

  /** The note is there and is not the one last ingested. */
  predicate Fresh(c: Setting, m: Memory, e: Event) {
    e.note.Some? && m.recorded != Some(c.digest(e.note.value))
  }

  /** The call parses the note and keeps what comes of it. */
  predicate Ingests(c: Setting, m: Memory, e: Event) {
    Fresh(c, m, e) && e.write
  }

  function OutcomeOf(c: Setting, m: Memory, e: Event): Outcome {
    if e.note.None? then Missing
    else if !Fresh(c, m, e) then Unchanged
    else Ingested(Changed(c.builtins, m.schema, c.parse(e.note.value), e.entries))
  }

  /** `sync_schema_from_note`: the schema is written back only when some report counts as a change, the
      hash whenever the note was parsed. */
  function Ingest(c: Setting, m: Memory, e: Event): Memory {
    if !Ingests(c, m, e) then m
    else
      var n := c.parse(e.note.value);
      Memory(if Changed(c.builtins, m.schema, n, e.entries) then Sync(c.builtins, m.schema, n, e.entries) else m.schema,
             Some(c.digest(e.note.value)))
  }

  lemma CallSteps(c: Setting, m: Memory, e: Event)
    ensures e.note.None? ==> OutcomeOf(c, m, e) == Missing && Ingest(c, m, e) == m
    ensures e.note.Some? && m.recorded == Some(c.digest(e.note.value)) ==> OutcomeOf(c, m, e) == Unchanged && Ingest(c, m, e) == m
    ensures e.note.Some? && m.recorded != Some(c.digest(e.note.value)) ==>
              var changed := Changed(c.builtins, m.schema, c.parse(e.note.value), e.entries);
              && OutcomeOf(c, m, e) == Ingested(changed)
              && Ingest(c, m, e) ==
                   if !e.write then m
                   else Memory(if changed then Sync(c.builtins, m.schema, c.parse(e.note.value), e.entries) else m.schema,
                               Some(c.digest(e.note.value)))
  {
    hide Sync, Changed;
  }

  // ---- the reconciler at work ----

  lemma KeepSnoc(s: seq<string>, k: nat, keep: string -> bool)
    requires k < |s|
    ensures Keep(s[..k + 1], keep) == Keep(s[..k], keep) + (if keep(s[k]) then [s[k]] else [])
  {
    assert s[..k + 1] == s[..k] + [s[k]];
    KeepConcat(s[..k], [s[k]], keep);
    assert Keep([s[k]], keep) == if keep(s[k]) then [s[k]] else [];
  }

  /** `allowed_controlled_values_from_schema`, without the empty value. */
  method CurrentValues(b: Vocabulary, p: Property) returns (values: seq<string>)
    ensures values == Current(b, p)
  {
    values := b.builtin;
    for k := 0 to |p.allowed|
      invariant values == Extend(b.builtin, Keep(p.allowed[..k], NonEmpty()))
    {
      KeepSnoc(p.allowed, k, NonEmpty());
      var before := Keep(p.allowed[..k], NonEmpty());
      if p.allowed[k] != "" {
        assert (before + [p.allowed[k]])[..|before|] == before;
        if p.allowed[k] !in values { values := values + [p.allowed[k]]; }
      } else {
        assert before + [] == before;
      }
    }
    assert p.allowed[..|p.allowed|] == p.allowed;
  }

  /** The lists `_apply_controlled` builds, in one pass over the current and one over the noted values. */
  method Reconcile(b: Vocabulary, p: Property, l: Listing, entries: seq<Entry>, key: string)
    returns (final: seq<string>, report: Report)
    ensures var used := Uses(entries, key);
            final == Final(b, p, l, used) && report == ControlledReport(b, p, l, used)
  {
    ghost var used := Uses(entries, key);
    var current := CurrentValues(b, p);
    var added, edited, removed, blocked := [], [], [], [];
    final := [];
    hide InUse, Current, Definitions;
    for k := 0 to |current|
      invariant final == Keep(current[..k], Stays(l, used))
      invariant removed == Keep(current[..k], Drops(l, used)) && blocked == Keep(current[..k], Blocks(l, used))
    {
      var v := current[k];
      KeepSnoc(current, k, Stays(l, used));
      KeepSnoc(current, k, Drops(l, used));
      KeepSnoc(current, k, Blocks(l, used));
      if v in Values(l) {
        final := final + [v];
      } else if InUse(entries, key, v) {
        final := final + [v];
        blocked := blocked + [v];
      } else {
        removed := removed + [v];
      }
    }
    assert current[..|current|] == current;
    for k := 0 to |l|
      invariant final == Keep(current, Stays(l, used)) + Keep(Values(l)[..k], NotIn(current))
      invariant added == Keep(Values(l)[..k], NotIn(current)) && edited == Keep(Values(l)[..k], Edits(b, p, l))
    {
      var v := l[k].0;
      KeepSnoc(Values(l), k, NotIn(current));
      KeepSnoc(Values(l), k, Edits(b, p, l));
      if v !in current {
        final := final + [v];
        added := added + [v];
      }
      if Edits(b, p, l)(v) { edited := edited + [v]; }
    }
    assert Values(l)[..|l|] == Values(l);
    report := Report(added, edited, removed, blocked);
  }

  /** The stored schema, and the working copy that a sync updates section by section, with its reports. */
  class SchemaStore {
    var stored: Schema
    var recorded: Option<string>
    var schema: Schema
    var typesReport: Report
    var reports: map<Field, Report>
    var hubsReports: map<string, Report>
    var propertiesReport: Report

    constructor (m: Memory)
      ensures Remembered() == m && NothingReported()
    {
      stored, recorded, schema := m.schema, m.recorded, m.schema;
      typesReport, reports, hubsReports, propertiesReport := NOTHING, map[], map[], NOTHING;
    }

    function Remembered(): Memory
      reads this
    {
      Memory(stored, recorded)
    }

    predicate NothingReported()
      reads this
    {
      typesReport == NOTHING && reports == map[] && hubsReports == map[] && propertiesReport == NOTHING
    }

    /** `_apply_controlled` on the stored schema. */
    method SyncControlled(b: Builtins, n: Parsed, entries: seq<Entry>, f: Field)
      modifies this`schema, this`reports
      ensures schema == old(schema).(values := old(schema.values)[f := SyncField(b, old(schema), n, entries, f)])
      ensures reports == old(reports)[f := FieldReport(b, old(schema), n, entries, f)]
    {
      hide InUse, Current, Definitions, Final, Key;
      var p := schema.Stored(f);
      var final, report := Reconcile(b.values(f), p, n.values(f), entries, Key(f));
      var definitions := KeptDefinitions(Definitions(b.values(f), p.definitions), report.blocked, n.values(f));
      schema := schema.(values := schema.values[f := Property([""] + final, definitions)]);
      reports := reports[f := report];
    }

    /** The controlled sections, in the order of `_SECTIONS`. */
    method SyncSections(b: Builtins, n: Parsed, entries: seq<Entry>)
      modifies this`schema, this`reports
      ensures schema == old(schema).(values := map f: Field :: SyncField(b, old(schema), n, entries, f))
      ensures forall f: Field :: f in reports && reports[f] == FieldReport(b, old(schema), n, entries, f)
    {
      ghost var before := schema;
      for k := 0 to 4
        invariant SectionsDone(b, before, schema, reports, n, entries, k)
      {
        hide SyncField, FieldReport, Key, SectionsDone;
        SectionStep(b, before, schema, reports, n, entries, FieldAt(k));
        SyncControlled(b, n, entries, FieldAt(k));
      }
      AllSectionsDone(b, before, schema, reports, n, entries);
    }

    /** All sections, in the source's order. */
    method SyncAll(b: Builtins, n: Parsed, entries: seq<Entry>)
      modifies this`schema, this`typesReport, this`reports, this`hubsReports, this`propertiesReport
      ensures schema == Sync(b, old(schema), n, entries)
      ensures typesReport == TypesReport(b.types, old(schema.types), n.types, Uses(entries, "type"))
      ensures forall f: Field :: f in reports && reports[f] == FieldReport(b, old(schema), n, entries, f)
      ensures hubsReports == HubsReports(old(schema.hubs), n.hubs, PointsTo(entries))
      ensures propertiesReport == PropertiesReported(b, old(schema), n, entries)
    {
      hide ApplyTypes, ApplyControlled, ApplyHubs, ApplyProperties, TypesReport, ControlledReport, Key, HubsReports, PropertiesReport;
      typesReport := TypesReport(b.types, schema.types, n.types, Uses(entries, "type"));
      schema := schema.(types := ApplyTypes(b.types, schema.types, n.types, Uses(entries, "type")));
      ghost var typed := schema;
      SyncSections(b, n, entries);
      forall f: Field
        ensures SyncField(b, typed, n, entries, f) == SyncField(b, old(schema), n, entries, f)
        ensures FieldReport(b, typed, n, entries, f) == FieldReport(b, old(schema), n, entries, f)
      {
        SameField(b, old(schema), typed, n, entries, f);
      }
      hubsReports := HubsReports(schema.hubs, n.hubs, PointsTo(entries));
      schema := schema.(hubs := ApplyHubs(schema.hubs, n.hubs, PointsTo(entries)));
      propertiesReport := NOTHING;
      if n.properties != [] {
        propertiesReport := PropertiesReport(b.properties, schema.properties, n.properties, CarriedBy(entries));
        schema := schema.(properties :=
          ApplyProperties(b.properties, schema.properties, n.properties, n.lists, CarriedBy(entries)));
      }
      schema := schema.(dashboards := n.dashboards);
    }

    /** The reports are those of applying the parsed note to `before`. */
    ghost predicate Reported(b: Builtins, before: Schema, n: Parsed, entries: seq<Entry>)
      reads this`typesReport, this`reports, this`hubsReports, this`propertiesReport
    {
      && typesReport == TypesReport(b.types, before.types, n.types, Uses(entries, "type"))
      && (forall f: Field :: f in reports && reports[f] == FieldReport(b, before, n, entries, f))
      && hubsReports == HubsReports(before.hubs, n.hubs, PointsTo(entries))
      && propertiesReport == PropertiesReported(b, before, n, entries)
    }

    /** A parsed note applied to a copy of the stored schema, and `result.changed`. */
    method SyncCopy(b: Builtins, n: Parsed, entries: seq<Entry>) returns (changed: bool)
      modifies this`schema, this`typesReport, this`reports, this`hubsReports, this`propertiesReport
      ensures schema == Sync(b, stored, n, entries) && changed == Changed(b, stored, n, entries)
      ensures Reported(b, stored, n, entries)
    {
      hide Sync, Changed, TypesReport, FieldReport, HubsReports, PropertiesReported, Changes, DashboardsChanged, Uses, PointsTo;
      schema := stored;
      SyncAll(b, n, entries);
      changed := Changes(typesReport) || Changes(reports[Status]) || Changes(reports[Domain]) || Changes(reports[SourceKind])
              || Changes(reports[CaptureType]) || (exists d | d in hubsReports :: Changes(hubsReports[d]))
              || Changes(propertiesReport) || DashboardsChanged(stored.dashboards, n.dashboards);
      ChangedParts(b, stored, n, entries);
    }

    /** `sync_schema_from_note`: nothing is parsed or reported when the note is the one last ingested. */
    method SyncFromNote(c: Setting, e: Event) returns (outcome: Outcome)
      modifies this
      ensures outcome == OutcomeOf(c, old(Remembered()), e)
      ensures Remembered() == Ingest(c, old(Remembered()), e)
      ensures !outcome.Ingested? ==> NothingReported()
      ensures outcome.Ingested? ==>
                && Reported(c.builtins, old(stored), c.parse(e.note.value), e.entries)
                && schema == Sync(c.builtins, old(stored), c.parse(e.note.value), e.entries)
    {
      CallSteps(c, Remembered(), e);
      hide Ingest, OutcomeOf, Fresh, Ingests, Sync, Changed, Reported;
      typesReport, reports, hubsReports, propertiesReport := NOTHING, map[], map[], NOTHING;
      if e.note.None? { return Missing; }
      var hash := c.digest(e.note.value);
      if recorded == Some(hash) { return Unchanged; }
      var changed := SyncCopy(c.builtins, c.parse(e.note.value), e.entries);
      if e.write {
        if changed { stored := schema; }
        recorded := Some(hash);
      }
      return Ingested(changed);
    }
  }

  lemma ChangedParts(b: Builtins, s: Schema, n: Parsed, entries: seq<Entry>)
    ensures Changed(b, s, n, entries)
       <==> (|| Changes(TypesReport(b.types, s.types, n.types, Uses(entries, "type")))
             || Changes(FieldReport(b, s, n, entries, Status)) || Changes(FieldReport(b, s, n, entries, Domain))
             || Changes(FieldReport(b, s, n, entries, SourceKind)) || Changes(FieldReport(b, s, n, entries, CaptureType))
             || (exists d | d in HubsReports(s.hubs, n.hubs, PointsTo(entries)) ::
                   Changes(HubsReports(s.hubs, n.hubs, PointsTo(entries))[d]))
             || Changes(PropertiesReported(b, s, n, entries))
             || DashboardsChanged(s.dashboards, n.dashboards))
  {
    hide TypesReport, FieldReport, DomainHubsReport, PropertiesReported, DashboardsChanged, Changes;
    var reports := HubsReports(s.hubs, n.hubs, PointsTo(entries));
    assert forall d | d in reports :: reports[d] == DomainHubsReport(HubsOf(s.hubs, d), HubsOf(n.hubs, d), PointsTo(entries));
    forall f: Field | Changes(FieldReport(b, s, n, entries, f)) ensures f in {Status, Domain, SourceKind, CaptureType} {
      match f case Status => case Domain => case SourceKind => case CaptureType =>
    }
  }

  function FieldIndex(f: Field): nat {
    match f case Status => 0 case Domain => 1 case SourceKind => 2 case CaptureType => 3
  }

  function FieldAt(k: nat): (f: Field)
    requires k < 4
    ensures FieldIndex(f) == k
  {
    if k == 0 then Status else if k == 1 then Domain else if k == 2 then SourceKind else CaptureType
  }

  /** The first `k` sections have been synced, the others are as they were. */
  ghost predicate SectionsDone(
    b: Builtins, s: Schema, now: Schema, reports: map<Field, Report>, n: Parsed, entries: seq<Entry>, k: nat)
  {
    && now == s.(values := now.values)
    && (forall f: Field | FieldIndex(f) < k ::
          && f in now.values && now.values[f] == SyncField(b, s, n, entries, f)
          && f in reports && reports[f] == FieldReport(b, s, n, entries, f))
    && (forall f: Field | FieldIndex(f) >= k :: now.Stored(f) == s.Stored(f))
  }

  lemma SectionStep(
    b: Builtins, s: Schema, now: Schema, reports: map<Field, Report>, n: Parsed, entries: seq<Entry>, f: Field)
    requires SectionsDone(b, s, now, reports, n, entries, FieldIndex(f))
    ensures SectionsDone(b, s, now.(values := now.values[f := SyncField(b, now, n, entries, f)]),
                         reports[f := FieldReport(b, now, n, entries, f)], n, entries, FieldIndex(f) + 1)
  {
    hide SyncField, FieldReport, FieldIndex;
    assert now.Stored(f) == s.Stored(f);
    SameField(b, s, now, n, entries, f);
    forall g: Field ensures FieldIndex(g) == FieldIndex(f) ==> g == f { IndexInjective(f, g); }
    OthersStored(now, f, SyncField(b, now, n, entries, f));
  }

  lemma OthersStored(s: Schema, f: Field, p: Property)
    ensures forall g: Field | g != f :: s.(values := s.values[f := p]).Stored(g) == s.Stored(g)
  {
  }

  lemma IndexInjective(f: Field, g: Field)
    ensures FieldIndex(g) == FieldIndex(f) ==> g == f
  {
  }

  lemma AllSectionsDone(b: Builtins, s: Schema, now: Schema, reports: map<Field, Report>, n: Parsed, entries: seq<Entry>)
    requires SectionsDone(b, s, now, reports, n, entries, 4)
    ensures now == s.(values := map f: Field :: SyncField(b, s, n, entries, f))
    ensures forall f: Field :: f in reports && reports[f] == FieldReport(b, s, n, entries, f)
  {
    hide SyncField, FieldReport;
    forall f: Field ensures FieldIndex(f) < 4 {}
    assert now.values == map f: Field :: SyncField(b, s, n, entries, f);
  }

  /** Syncing one property reads only what is stored for it. */
  lemma SameField(b: Builtins, s: Schema, t: Schema, n: Parsed, entries: seq<Entry>, f: Field)
    requires s.Stored(f) == t.Stored(f)
    ensures SyncField(b, t, n, entries, f) == SyncField(b, s, n, entries, f)
    ensures FieldReport(b, t, n, entries, f) == FieldReport(b, s, n, entries, f)
  {
    hide ApplyControlled, ControlledReport, Key;
  }
}
